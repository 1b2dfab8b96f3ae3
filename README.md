# Crypto dashboard: price chart cache and market list, in Dafny

This project models the client-side core of a cryptocurrency dashboard. It has two parts.

**The price chart** (`PriceChart`, in `price_chart.dfy`). The user picks a coin and a
range: a fixed window (`1d`, `1m`, `1y`) or a custom span with a start date and an end
date. The chart builds a cache key such as `priceChart-bitcoin-1d` or
`priceChart-bitcoin-custom-2024-01-01-2024-02-01`. It then looks that key up in the
browser's persistent store. On a hit it publishes the stored payload and sends nothing.
On a miss it sends one request to the market-data provider. If the answer carries a
`prices` list, the chart turns it into parallel `labels` and `data` arrays, stores the
payload under the key and publishes it. If the fetch fails, or the store refuses the
write because its quota is used up, the failure is only logged. The effect hook runs the
fetch once on mount and again whenever the coin, the range or a date changes.

The pure part is made of functions: `RangeTag`, `RangeToDays`, `CacheKey`,
`SelectionKey`, `RequestFor` and the normalisation (`Labels`, `Prices`, `ChartPayload`).
The function `ChartEffect` says what one fetch does to the state
`ChartState(cache, chartData)` and which request it sends. The class
`PriceChart.Component` holds the component's state slots as fields:
- `selectedId`, `range`, `startDate` and `endDate`;
- `chartData: Option<Payload>`;
- `cache: map<string, Payload>`, the browser store.

Its methods `FetchChartData`, `RunEffect` and `Select` work step by step, with early
returns. `Mount` builds the component and runs the effect hook once, as React does after
the first render. Each one is proved to change the state exactly as `ChartEffect` says. The
properties are then lemmas about `ChartEffect`:
- an incomplete selection does nothing;
- a fetch is sent exactly on a miss;
- a hit publishes what the store holds;
- a delivered miss whose write the store accepts stores and publishes the same payload
  and changes no other key;
- a failure, or a refused write, changes nothing;
- within one fetch, which the model runs to completion, the store only grows (a contract of
  `ChartEffect`);
- the published payload is always a stored one;
- repeating a selection is answered from the store.

The key lemmas prove the following. Fixed-window keys carry no date suffix. A custom key
never equals a fixed-window key. When custom dates are HTML date-input values
(`yyyy-mm-dd`), two complete selections share a key exactly when they ask for the same
data. Date-input values are taken to have a four-digit year; a browser date input can also
carry a longer year (such as `275760-01-01`), which `IsDateInput` does not admit.

**The market list** (`App`, in `app.dfy`). `App.Component.FetchData` starts a load: it
sets `loading` and clears `error`. `OnFetchSettled` is the promise chain that handles the
answer. On success, the coin list is copied into an array and sorted in place by current
price, descending. The sort is the insertion sort `SortDesc`, proved sorted and a
permutation. The result becomes `coins`, `lastUpdated` is set and loading ends. On any
failure, including a non-ok status, `error` becomes the message, `coins` is left as it
was and loading ends. `Top5MarketCap` and `Top5Volume` copy the list into a fresh array,
sort the copy and keep the first five (`TakeTop`). They are proved to return
`min(5, length of coins)` coins from the list, in non-increasing order. No coin left out ranks
above the last one kept. These methods have no `modifies` clause, so `coins` keeps its
order.

Outside inputs are parameters:
- the network answer: `ChartResponse`, `MarketResponse`;
- the browser's date parser: `epochMillis`, standing for `new Date(d).getTime()`;
- the locale date formatter: `fmt`, standing for `toLocaleDateString`;
- the formatted clock time: `now`.

The JSON round trip through the store is taken as identity. An empty string stands for
both an absent date and an empty one, as JavaScript's `start && end` treats them alike.

### What the code does not check
- There is no start ≤ end check on a custom span. An inverted span is fetched like any
  other (`ChartEffectFetchesOnlyOnMiss` has no order condition).
- The chart's fetch never checks `res.ok`. A non-2xx answer whose body holds `prices` is
  normalised, stored and published (`ChartEffectIgnoresStatus`).
- A failed fetch does not clear the chart. The previous payload stays published, even
  when it belongs to an earlier selection (`ChartEffectFailureKeepsState`).
- Stale responses are not suppressed. In this model each fetch completes inside the call
  that issued it, so there is no interleaving to suppress.

## Model

| member | source | states |
|---|---|---|
| `PriceChart.RangeToDays` | frontend/src/components/PriceChart.tsx:28-32 | a fixed window has a positive lookback in days |
| `PriceChart.RangeToDaysValues` | frontend/src/components/PriceChart.tsx:28-32 | `1d`, `1m`, `1y` map to 1, 30 and 365 days, in increasing order |
| `PriceChart.FixedKeyShape` | frontend/src/components/PriceChart.tsx:42-54 | a fixed-window key is exactly `priceChart-{id}-{range}`; the date inputs, whatever they hold, do not enter it |
| `PriceChart.CustomKeyIsNotFixed` | frontend/src/components/PriceChart.tsx:42-60 | for the same coin a custom key differs from every fixed-window key (the range segment differs) |
| `PriceChart.FixedKeyInjective` | frontend/src/components/PriceChart.tsx:42-54 | equal fixed-window keys have the same coin and the same window |
| `PriceChart.CustomKeyInjective` | frontend/src/components/PriceChart.tsx:42-60 | with date-input dates, equal custom keys have the same coin, start and end |
| `PriceChart.CustomKeyIsNeverFixed` | frontend/src/components/PriceChart.tsx:42-60 | a custom key ending in a date equals no fixed-window key of any coin (the final characters differ) |
| `PriceChart.SelectionKeyIdentifiesData` | frontend/src/components/PriceChart.tsx:51-61 | two complete selections share a key if and only if they ask for the same coin, range and (for custom) dates |
| `PriceChart.EpochSeconds` | frontend/src/components/PriceChart.tsx:57-58 | the epoch seconds are the floor of milliseconds over 1000 |
| `PriceChart.Labels` | frontend/src/components/PriceChart.tsx:72-74 | one label per price point, `labels[i] = fmt(prices[i][0])` |
| `PriceChart.Prices` | frontend/src/components/PriceChart.tsx:75 | one value per price point, `data[i] = prices[i][1]` |
| `PriceChart.ChartPayload` | frontend/src/components/PriceChart.tsx:72-96 | the payload has one dataset; labels and data have the length of the price list and correspond to it index by index |
| `PriceChart.NormaliseAppend` | frontend/src/components/PriceChart.tsx:72-75 | normalising a concatenation is the concatenation of the normalised parts, so order is kept |
| `PriceChart.RangeTag` | frontend/src/components/PriceChart.tsx:16 | the fixed-window tags have two characters, a `1` then `d`, `m` or `y`; the custom tag starts with `c` |
| `PriceChart.CacheKey` | frontend/src/components/PriceChart.tsx:42-43 | the key starts with `priceChart-{id}-{range}`; without both dates nothing follows it; with both it ends with the end date |
| `PriceChart.Fetchable` | frontend/src/components/PriceChart.tsx:46-56 | the fetch's early returns (no coin; custom span missing a date); a selection they let through also passes the hook's guard |
| `PriceChart.SelectionKey` | frontend/src/components/PriceChart.tsx:51-60 | the key of a selection starts with `priceChart-`, the coin id and the range's tag |
| `PriceChart.RequestFor` | frontend/src/components/PriceChart.tsx:51-59 | the request is for the selected coin; a lookback of `RangeToDays` days for a fixed window; for a custom span the floor in seconds of both parsed dates |
| `PriceChart.ChartEffect` | frontend/src/components/PriceChart.tsx:45-103 | one fetch, run to completion: the request it sends is the selection's; within that fetch no store entry is removed or changed, and at most the selection's key is added |
| `PriceChart.ChartEffectGuarded` | frontend/src/components/PriceChart.tsx:45-61 | with no coin, or a custom range missing a date, no read, no write, no request and no new payload |
| `PriceChart.ChartEffectFetchesOnlyOnMiss` | frontend/src/components/PriceChart.tsx:63-70 | a request is sent if and only if the selection is complete and its key is absent from the store |
| `PriceChart.ChartEffectHit` | frontend/src/components/PriceChart.tsx:63-67 | on a hit the stored payload is published and the store is unchanged |
| `PriceChart.ChartEffectMissStored` | frontend/src/components/PriceChart.tsx:69-99 | after a delivered miss whose write the store accepts, the store maps the key to the normalised payload, that payload is published, and every other entry is kept |
| `PriceChart.ChartEffectFailureKeepsState` | frontend/src/components/PriceChart.tsx:69-102 | when no price list is delivered, or the store refuses the write (`setItem` throws before `setChartData`), the store is unchanged, and unless the key is a hit the published payload is too |
| `PriceChart.ChartEffectIgnoresStatus` | frontend/src/components/PriceChart.tsx:70-71 | the HTTP status does not affect the outcome |
| `PriceChart.ChartEffectKeepsShowsStored` | frontend/src/components/PriceChart.tsx:63-99 | if the published payload is a stored one before a fetch, it is one after it |
| `PriceChart.ChartEffectRepeatIsCached` | frontend/src/components/PriceChart.tsx:63-99 | once a selection's payload is stored, repeating it sends no request and changes nothing |
| `PriceChart.EffectGuardSubsumed` | frontend/src/components/PriceChart.tsx:194-197 | the hook's own guard blocks only selections that the fetch ignores anyway |
| `PriceChart.Component.constructor` | frontend/src/components/PriceChart.tsx:35-39 | the first coin (or none), the one-day window, empty dates and no payload |
| `PriceChart.Component.Mount` | frontend/src/components/PriceChart.tsx:194-197 | a fresh component with the initial selection, whose state and request after the hook's first run are those of `ChartEffect` from an empty chart |
| `PriceChart.Component.FetchChartData` | frontend/src/components/PriceChart.tsx:45-103 | the new store, the new payload and the request sent are those of `ChartEffect`; the published payload stays a stored one |
| `PriceChart.Component.RunEffect` | frontend/src/components/PriceChart.tsx:194-197 | the hook's guard followed by the fetch has the effect of the fetch alone |
| `PriceChart.Component.Select` | frontend/src/components/PriceChart.tsx:194-197 | the new selection is recorded; the fetch runs if and only if a dependency changed |
| `App.Swap` | frontend/src/App.tsx:62 | exchanges two elements, leaves the others, and keeps the multiset of elements |
| `App.SortDesc` | frontend/src/App.tsx:62 | the array is sorted by the field, non-increasing, and is a permutation of its old contents |
| `App.SortedTailBounded` | frontend/src/App.tsx:77-78 | in a sorted list no element past position `k` ranks above the element at `k - 1` |
| `App.SortedPrefixIsTop` | frontend/src/App.tsx:77-78 | every prefix of a sorted list, cut at `min(n, length)`, is a top-`n` selection of it |
| `App.TakeTop` | frontend/src/App.tsx:77-78 | copy, sort, slice gives `min(n, length of coins)` coins from the list, non-increasing, and no coin left out ranks above the last one |
| `App.FailureMessage` | frontend/src/App.tsx:57-70 | the chain reaches the success handler exactly when the status is ok and the body is a coin list; a non-ok status gives `Failed to fetch data`, a rejection or a body that fails to parse gives its own error message |
| `App.Component.constructor` | frontend/src/App.tsx:46-49 | no coins, loading, no error, no update time |
| `App.Component.FetchData` | frontend/src/App.tsx:51-53 | starting a load sets loading and clears the error |
| `App.Component.OnFetchSettled` | frontend/src/App.tsx:57-70 | on success the coins are a permutation of the answer, sorted by current price non-increasing, and the update time is set; on failure (a non-ok status included) the error is the message and the coins and update time are unchanged; loading ends either way |
| `App.Component.Top5MarketCap` | frontend/src/App.tsx:77 | the first `min(5, length of coins)` coins by market capitalisation; `coins` is not modified |
| `App.Component.Top5Volume` | frontend/src/App.tsx:78 | the first `min(5, length of coins)` coins by total volume; `coins` is not modified |

## Left out

- The URL strings sent to the provider: `Request` keeps only their parameters (coin, days, from and to). The currency and the `interval=daily` query part are fixed text.
- Date parsing and formatting (`new Date(...).getTime()`, `toLocaleDateString`, `toLocaleTimeString`): these depend on the locale and the calendar, so they are the parameters `epochMillis`, `fmt` and `now`. An unparseable date (`NaN` in JavaScript) is not modelled.
- JSON encoding of the store and the store's own eviction: the round trip is taken as identity and nothing is ever evicted. Whether the store has room for a write is the parameter `writeAccepted`, not derived from the stored sizes.
- A `prices` list whose items are not number pairs: the model's body either has a list of `PricePoint`s or has no list at all.
- `openChartInNewWindow` (frontend/src/components/PriceChart.tsx:105-192): it opens a browser window and writes a document there. It does nothing when no payload is published (line 106), and also returns when the window cannot be opened (line 109) or, in the new window's load handler, when no element with id `popupChart` is found (lines 161-162). It neither fetches nor touches the store.
- React's asynchronous scheduling: each fetch completes inside the call that issued it. Overlapping loads and responses that arrive after the selection changed are not modelled, and neither are two market-list loads in flight at once. In the source two fetches of one key can overlap (pick `1d`, switch to `1m`, switch back before the first answer arrives): both miss, both write the key, and the later answer overwrites the entry. So an existing store entry can change in the source, which no single `ChartEffect` shows.
- A change of the coin list passed to the chart after mounting: the source reads it only for the initial selection.
- JSX, styling and the chart options. The payload's style fields are the constants of `PriceDataset`.
- App.SortDesc: stability is not stated. The contract says sorted and a permutation but not that equal keys keep their order, which `Array.prototype.sort` guarantees.
- App.TakeTop, App.Component.Top5MarketCap, App.Component.Top5Volume, App.Component.OnFetchSettled: they inherit that gap. Among coins with equal keys, which comes first (for the ranked list, which is `coins[0]`, the chart's default) or which makes the top five is not stated; the stable sort keeps the earlier one.
- JavaScript numbers are modelled as exact reals. There is no `NaN`, no infinity and no rounding in the `b - a` comparators.
- The backend (backend/app/fetcher.py, database.py, main.py), the coin card and the chat widget are not part of this model.
