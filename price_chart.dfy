/**
 * The price chart of the dashboard: for the selected coin and time range it
 * builds a cache key, answers from the browser's persistent store when it can,
 * and otherwise fetches the price history, normalises it into a chart payload,
 * stores it and publishes it.
 *
 * The persistent store (`localStorage`) is a `map<string, Payload>`: writing a
 * payload as JSON and reading it back is taken to give the same payload.  The
 * network answer, the date parser and the locale date formatter are
 * parameters.  A fetch completes within the call that issues it.
 */
module PriceChart {
  import opened Wrappers

  /** The selectable time ranges: three fixed windows and an explicit span. */
  datatype Range = OneDay | OneMonth | OneYear | Custom

  /** The range's tag as the component writes it into cache keys. */
  function RangeTag(r: Range): (tag: string)
    ensures r != Custom ==> |tag| == 2 && tag[0] == '1' && tag[1] in "dmy"
    ensures r == Custom ==> |tag| == 6 && tag[0] == 'c'
  {
    match r
    case OneDay => "1d"
    case OneMonth => "1m"
    case OneYear => "1y"
    case Custom => "custom"
  }

  /** Lookback in days of a fixed window. */
  function RangeToDays(r: Range): (days: nat)
    requires r != Custom
    ensures days > 0
  {
    match r
    case OneDay => 1
    case OneMonth => 30
    case OneYear => 365
  }

  lemma RangeToDaysValues()
    ensures RangeToDays(OneDay) == 1 && RangeToDays(OneMonth) == 30 && RangeToDays(OneYear) == 365
    ensures RangeToDays(OneDay) < RangeToDays(OneMonth) < RangeToDays(OneYear)
  {
  }

  const KeyPrefix: string := "priceChart-"

  /**
   * The cache key of a coin and a range tag.  The two dates are appended only
   * when both are non-empty; "" stands for an absent as well as an empty date.
   */
  function CacheKey(coinId: string, range: string, start: string, end: string): (key: string)
    ensures KeyPrefix + coinId + "-" + range <= key
    ensures start == "" || end == "" ==> |key| == |KeyPrefix + coinId + "-" + range|
    ensures start != "" && end != "" ==>
      |key| == |KeyPrefix + coinId + "-" + range| + 2 + |start| + |end| && key[|key| - |end|..] == end
  {
    KeyPrefix + coinId + "-" + range + (if start != "" && end != "" then "-" + start + "-" + end else "")
  }

  /** The component's selection state: coin, range and the two date inputs. */
  datatype Selection = Selection(coinId: string, range: Range, startDate: string, endDate: string)

  /** The selection passes both early returns of the fetch: a coin is chosen and a custom span has both dates. */
  predicate Fetchable(sel: Selection): (b: bool)
    ensures b ==> EffectGuardPasses(sel)
  {
    sel.coinId != "" && (sel.range == Custom ==> sel.startDate != "" && sel.endDate != "")
  }

  /** The key the fetch uses: dates only for a custom span. */
  function SelectionKey(sel: Selection): (key: string)
    ensures KeyPrefix + sel.coinId + "-" + RangeTag(sel.range) <= key
  {
    if sel.range != Custom then CacheKey(sel.coinId, RangeTag(sel.range), "", "")
    else CacheKey(sel.coinId, "custom", sel.startDate, sel.endDate)
  }

  /** A value of an HTML date input: `yyyy-mm-dd`. */
  predicate IsDateInput(d: string)
  {
    |d| == 10 && d[4] == '-' && d[7] == '-' &&
    forall i :: 0 <= i < 10 && i != 4 && i != 7 ==> '0' <= d[i] <= '9'
  }

  /** Two selections ask for the same data: same coin and range, and the same dates if the range is custom. */
  predicate SameData(s1: Selection, s2: Selection)
  {
    s1.coinId == s2.coinId && s1.range == s2.range &&
    (s1.range == Custom ==> s1.startDate == s2.startDate && s1.endDate == s2.endDate)
  }

  /** The fixed-window key carries neither dates nor a timestamp, whatever the date inputs hold. */
  lemma FixedKeyShape(sel: Selection)
    requires sel.range != Custom
    ensures SelectionKey(sel) == KeyPrefix + sel.coinId + "-" + RangeTag(sel.range)
    ensures SelectionKey(sel) == SelectionKey(Selection(sel.coinId, sel.range, "", ""))
  {
  }

  /** A custom-range key and a fixed-window key of the same coin differ right after the coin id. */
  lemma CustomKeyIsNotFixed(coinId: string, start: string, end: string, w: Range)
    requires w != Custom
    ensures CacheKey(coinId, "custom", start, end) != CacheKey(coinId, RangeTag(w), "", "")
  {
    var i := |KeyPrefix + coinId + "-"|;
    assert CacheKey(coinId, "custom", start, end)[i] == 'c';
    assert CacheKey(coinId, RangeTag(w), "", "")[i] == '1';
  }

  /** Fixed-window keys determine coin and window: every tag has two characters. */
  lemma FixedKeyInjective(a: string, w1: Range, b: string, w2: Range)
    requires w1 != Custom && w2 != Custom
    requires CacheKey(a, RangeTag(w1), "", "") == CacheKey(b, RangeTag(w2), "", "")
    ensures a == b && w1 == w2
  {
    var k := CacheKey(a, RangeTag(w1), "", "");
    assert k == KeyPrefix + a + "-" + RangeTag(w1);
    assert k == KeyPrefix + b + "-" + RangeTag(w2);
    assert |a| == |b|;
    assert a == k[11..11 + |a|];
    assert b == k[11..11 + |b|];
    assert RangeTag(w1) == k[|k| - 2..] == RangeTag(w2);
  }

  /** Custom keys over date-input values determine coin and both dates. */
  lemma CustomKeyInjective(a: string, s1: string, e1: string, b: string, s2: string, e2: string)
    requires IsDateInput(s1) && IsDateInput(e1) && IsDateInput(s2) && IsDateInput(e2)
    requires CacheKey(a, "custom", s1, e1) == CacheKey(b, "custom", s2, e2)
    ensures a == b && s1 == s2 && e1 == e2
  {
    var k := CacheKey(a, "custom", s1, e1);
    assert k == KeyPrefix + a + "-" + "custom" + ("-" + s1 + "-" + e1);
    assert k == KeyPrefix + b + "-" + "custom" + ("-" + s2 + "-" + e2);
    assert |a| == |b|;
    assert a == k[11..11 + |a|];
    assert b == k[11..11 + |b|];
    assert s1 == k[|k| - 21..|k| - 11] == s2;
    assert e1 == k[|k| - 10..] == e2;
  }

  /** A custom key ending in a date never equals a fixed-window key, of any coin: their last characters differ. */
  lemma CustomKeyIsNeverFixed(a: string, start: string, end: string, b: string, w: Range)
    requires w != Custom && start != "" && IsDateInput(end)
    ensures CacheKey(a, "custom", start, end) != CacheKey(b, RangeTag(w), "", "")
  {
    var k1 := CacheKey(a, "custom", start, end);
    var k2 := CacheKey(b, RangeTag(w), "", "");
    assert k1[|k1| - 1] == end[9];
    assert k2[|k2| - 1] == RangeTag(w)[1];
  }

  /**
   * Two fetchable selections whose custom dates are date-input values share a
   * key exactly when they ask for the same data.
   */
  lemma SelectionKeyIdentifiesData(s1: Selection, s2: Selection)
    requires Fetchable(s1) && Fetchable(s2)
    requires s1.range == Custom ==> IsDateInput(s1.startDate) && IsDateInput(s1.endDate)
    requires s2.range == Custom ==> IsDateInput(s2.startDate) && IsDateInput(s2.endDate)
    ensures SelectionKey(s1) == SelectionKey(s2) <==> SameData(s1, s2)
  {
    if SelectionKey(s1) == SelectionKey(s2) {
      if s1.range != Custom && s2.range != Custom {
        FixedKeyInjective(s1.coinId, s1.range, s2.coinId, s2.range);
      } else if s1.range == Custom && s2.range == Custom {
        CustomKeyInjective(s1.coinId, s1.startDate, s1.endDate, s2.coinId, s2.startDate, s2.endDate);
      } else if s1.range == Custom {
        CustomKeyIsNeverFixed(s1.coinId, s1.startDate, s1.endDate, s2.coinId, s2.range);
      } else {
        CustomKeyIsNeverFixed(s2.coinId, s2.startDate, s2.endDate, s1.coinId, s1.range);
      }
    }
  }

  /** One request to the market-data provider: a lookback in days or a span in epoch seconds. */
  datatype Request = MarketChart(coinId: string, days: nat) | MarketChartRange(coinId: string, from: int, to: int)

  /** `Math.floor(millis / 1000)`. */
  function EpochSeconds(millis: int): (seconds: int)
    ensures seconds * 1000 <= millis < seconds * 1000 + 1000
  {
    millis / 1000
  }

  /** The request of a selection; `epochMillis` is the browser's date parser (`new Date(d).getTime()`). */
  function RequestFor(sel: Selection, epochMillis: string -> int): (r: Request)
    ensures r.coinId == sel.coinId
    ensures r.MarketChart? <==> sel.range != Custom
    ensures r.MarketChart? ==> r.days == RangeToDays(sel.range)
    ensures r.MarketChartRange? ==>
      r.from * 1000 <= epochMillis(sel.startDate) < r.from * 1000 + 1000 &&
      r.to * 1000 <= epochMillis(sel.endDate) < r.to * 1000 + 1000
  {
    if sel.range != Custom then MarketChart(sel.coinId, RangeToDays(sel.range))
    else MarketChartRange(sel.coinId, EpochSeconds(epochMillis(sel.startDate)), EpochSeconds(epochMillis(sel.endDate)))
  }

  /** One element of the provider's `prices` array: `[timestamp in ms, price]`. */
  datatype PricePoint = PricePoint(time: int, price: real)

  /** The one line series of the chart, with its fixed styling. */
  datatype Dataset = Dataset(
    seriesLabel: string, data: seq<real>, fill: bool, backgroundColor: string, borderColor: string,
    borderWidth: nat, tension: real, pointRadius: nat, pointHoverRadius: nat, pointBackgroundColor: string)

  /** The chart payload the component publishes and stores. */
  datatype Payload = Payload(labels: seq<string>, datasets: seq<Dataset>)

  /** The labels: each timestamp through the locale date formatter `fmt`, in order. */
  function Labels(points: seq<PricePoint>, fmt: int -> string): (labels: seq<string>)
    ensures |labels| == |points|
    ensures forall i :: 0 <= i < |points| ==> labels[i] == fmt(points[i].time)
  {
    if points == [] then [] else [fmt(points[0].time)] + Labels(points[1..], fmt)
  }

  /** The prices, in order. */
  function Prices(points: seq<PricePoint>): (prices: seq<real>)
    ensures |prices| == |points|
    ensures forall i :: 0 <= i < |points| ==> prices[i] == points[i].price
  {
    if points == [] then [] else [points[0].price] + Prices(points[1..])
  }

  function PriceDataset(prices: seq<real>): Dataset
  {
    Dataset("Price (USD)", prices, true, "rgba(118, 48, 234, 0.3)", "#7630EA", 2, 0.4, 3, 5, "#7630EA")
  }

  /** Normalisation of the provider's price list into the chart payload. */
  function ChartPayload(points: seq<PricePoint>, fmt: int -> string): (p: Payload)
    ensures |p.datasets| == 1 && |p.labels| == |p.datasets[0].data| == |points|
    ensures forall i :: 0 <= i < |points| ==>
      p.labels[i] == fmt(points[i].time) && p.datasets[0].data[i] == points[i].price
  {
    Payload(Labels(points, fmt), [PriceDataset(Prices(points))])
  }

  /** Normalisation works point by point: it commutes with concatenation, so it keeps relative order. */
  lemma NormaliseAppend(a: seq<PricePoint>, b: seq<PricePoint>, fmt: int -> string)
    ensures Labels(a + b, fmt) == Labels(a, fmt) + Labels(b, fmt)
    ensures Prices(a + b) == Prices(a) + Prices(b)
  {
    // both sides agree in length and at every index, by the contracts of Labels and Prices
  }

  /** What the provider's fetch yields: a rejection (network error or non-JSON body), or a status and a parsed body, which may or may not hold a `prices` array. */
  datatype ChartResponse = Rejected | Received(status: int, prices: Option<seq<PricePoint>>)

  /** The state a fetch changes: the persistent store and the published chart payload. */
  datatype ChartState = ChartState(cache: map<string, Payload>, chartData: Option<Payload>)

  /** The state after a fetch, and the request it sent to the provider, if any. */
  datatype Effect = Effect(state: ChartState, request: Option<Request>)

  /**
   * Specification of one run of the fetch for selection `sel` from state `st`.
   * `writeAccepted` says whether the browser store takes the write: when its
   * quota is exhausted `setItem` throws, the publish after it is skipped and
   * the error is only logged.  The request and its answer happen together, so
   * no other fetch can write the key in between: that an existing entry is
   * never changed holds for one fetch run to completion.
   */
  function ChartEffect(sel: Selection, st: ChartState, fmt: int -> string, epochMillis: string -> int,
                       response: ChartResponse, writeAccepted: bool): (r: Effect)
    ensures r.request.Some? ==> r.request == Some(RequestFor(sel, epochMillis))
    ensures st.cache.Keys <= r.state.cache.Keys <= st.cache.Keys + {SelectionKey(sel)}
    ensures forall k :: k in st.cache ==> r.state.cache[k] == st.cache[k]
  {
    if !Fetchable(sel) then Effect(st, None)
    else
      var key := SelectionKey(sel);
      if key in st.cache then Effect(ChartState(st.cache, Some(st.cache[key])), None)
      else
        var request := Some(RequestFor(sel, epochMillis));
        match response
        case Received(_, Some(points)) =>
          var payload := ChartPayload(points, fmt);
          if writeAccepted then Effect(ChartState(st.cache[key := payload], Some(payload)), request)
          else Effect(st, request)
        case _ => Effect(st, request)
  }

  /** The fetch succeeded and its body held a price list. */
  predicate Delivered(response: ChartResponse)
  {
    response.Received? && response.prices.Some?
  }

  /** Incomplete selections touch nothing and send nothing. */
  lemma ChartEffectGuarded(sel: Selection, st: ChartState, fmt: int -> string, epochMillis: string -> int,
                           response: ChartResponse, writeAccepted: bool)
    requires !Fetchable(sel)
    ensures ChartEffect(sel, st, fmt, epochMillis, response, writeAccepted) == Effect(st, None)
  {
  }

  /** A request is sent exactly when the selection is complete and its key is not in the store. */
  lemma ChartEffectFetchesOnlyOnMiss(sel: Selection, st: ChartState, fmt: int -> string, epochMillis: string -> int,
                                     response: ChartResponse, writeAccepted: bool)
    ensures ChartEffect(sel, st, fmt, epochMillis, response, writeAccepted).request.Some?
        <==> Fetchable(sel) && SelectionKey(sel) !in st.cache
  {
  }

  /** On a hit the stored payload is published and the store is left as it is. */
  lemma ChartEffectHit(sel: Selection, st: ChartState, fmt: int -> string, epochMillis: string -> int,
                       response: ChartResponse, writeAccepted: bool)
    requires Fetchable(sel) && SelectionKey(sel) in st.cache
    ensures ChartEffect(sel, st, fmt, epochMillis, response, writeAccepted).state
         == ChartState(st.cache, Some(st.cache[SelectionKey(sel)]))
  {
  }

  /**
   * After a delivered miss whose write the store accepts, the store maps the
   * key to the normalised payload, that payload is published, and every other
   * key keeps its entry.
   */
  lemma ChartEffectMissStored(sel: Selection, st: ChartState, fmt: int -> string, epochMillis: string -> int,
                              response: ChartResponse)
    requires Fetchable(sel) && SelectionKey(sel) !in st.cache && Delivered(response)
    ensures var after := ChartEffect(sel, st, fmt, epochMillis, response, true).state;
      after.cache.Keys == st.cache.Keys + {SelectionKey(sel)} &&
      after.cache[SelectionKey(sel)] == ChartPayload(response.prices.value, fmt) &&
      after.chartData == Some(after.cache[SelectionKey(sel)]) &&
      forall k :: k in st.cache ==> after.cache[k] == st.cache[k]
  {
  }

  /**
   * Without delivered prices, or with a write the store refuses, the store is
   * never written, and unless the key is a hit the published payload stays as
   * it was.
   */
  lemma ChartEffectFailureKeepsState(sel: Selection, st: ChartState, fmt: int -> string, epochMillis: string -> int,
                                     response: ChartResponse, writeAccepted: bool)
    requires !Delivered(response) || !writeAccepted
    ensures ChartEffect(sel, st, fmt, epochMillis, response, writeAccepted).state.cache == st.cache
    ensures SelectionKey(sel) !in st.cache ==> ChartEffect(sel, st, fmt, epochMillis, response, writeAccepted).state == st
  {
  }

  /** The response status plays no part: a non-2xx answer whose body holds prices is published like a 200. */
  lemma ChartEffectIgnoresStatus(sel: Selection, st: ChartState, fmt: int -> string, epochMillis: string -> int,
                                 status1: int, status2: int, prices: Option<seq<PricePoint>>, writeAccepted: bool)
    ensures ChartEffect(sel, st, fmt, epochMillis, Received(status1, prices), writeAccepted)
         == ChartEffect(sel, st, fmt, epochMillis, Received(status2, prices), writeAccepted)
  {
  }

  /** The published payload is always one the store holds. */
  predicate ShowsStored(st: ChartState)
  {
    st.chartData.Some? ==> st.chartData.value in st.cache.Values
  }

  lemma ChartEffectKeepsShowsStored(sel: Selection, st: ChartState, fmt: int -> string, epochMillis: string -> int,
                                    response: ChartResponse, writeAccepted: bool)
    requires ShowsStored(st)
    ensures ShowsStored(ChartEffect(sel, st, fmt, epochMillis, response, writeAccepted).state)
  {
    var after := ChartEffect(sel, st, fmt, epochMillis, response, writeAccepted).state;
    if after != st && Fetchable(sel) {
      var key := SelectionKey(sel);
      assert after.cache[key] == after.chartData.value;
    }
  }

  /**
   * Repeating a selection once its payload is stored sends nothing and changes
   * nothing, whatever the network and the store would do.
   */
  lemma ChartEffectRepeatIsCached(sel: Selection, st: ChartState, fmt: int -> string, epochMillis: string -> int,
                                  first: ChartResponse, firstAccepted: bool, second: ChartResponse, secondAccepted: bool)
    requires Fetchable(sel)
    requires SelectionKey(sel) in st.cache || (Delivered(first) && firstAccepted)
    ensures var once := ChartEffect(sel, st, fmt, epochMillis, first, firstAccepted);
      ChartEffect(sel, once.state, fmt, epochMillis, second, secondAccepted) == Effect(once.state, None)
  {
  }

  /** The guard of the effect hook: not a custom span with a missing date. */
  predicate EffectGuardPasses(sel: Selection)
  {
    !(sel.range == Custom && (sel.startDate == "" || sel.endDate == ""))
  }

  /** The hook's guard blocks only selections the fetch itself ignores. */
  lemma EffectGuardSubsumed(sel: Selection, st: ChartState, fmt: int -> string, epochMillis: string -> int,
                            response: ChartResponse, writeAccepted: bool)
    requires !EffectGuardPasses(sel)
    ensures !Fetchable(sel)
    ensures ChartEffect(sel, st, fmt, epochMillis, response, writeAccepted) == Effect(st, None)
  {
  }

  /** A coin of the selector's list. */
  datatype CoinOption = CoinOption(id: string, symbol: string, name: string)

  /** The selection the component starts with: the first coin if there is one, the one-day window, no dates. */
  function InitialSelection(coins: seq<CoinOption>): Selection
  {
    Selection(if |coins| > 0 then coins[0].id else "", OneDay, "", "")
  }

  /** The chart component: its selection state, its published payload and the browser store. */
  class Component {
    var selectedId: string
    var range: Range
    var startDate: string
    var endDate: string
    var chartData: Option<Payload>
    var cache: map<string, Payload>

    function Selected(): Selection
      reads this
    {
      Selection(selectedId, range, startDate, endDate)
    }

    function State(): ChartState
      reads this
    {
      ChartState(cache, chartData)
    }

    ghost predicate Valid()
      reads this
    {
      ShowsStored(State())
    }

    /** The initial state slots, before the first effect run; `store` is what the browser store already holds. */
    constructor (coins: seq<CoinOption>, store: map<string, Payload>)
      ensures Selected() == InitialSelection(coins)
      ensures State() == ChartState(store, None)
      ensures Valid()
    {
      selectedId := if |coins| > 0 then coins[0].id else "";
      range := OneDay;
      startDate, endDate := "", "";
      chartData := None;
      cache := store;
    }

    /** Mounting: the initial state, then the effect hook's first run, which happens whatever the dependencies. */
    static method Mount(coins: seq<CoinOption>, store: map<string, Payload>,
                        fmt: int -> string, epochMillis: string -> int, response: ChartResponse, writeAccepted: bool)
      returns (c: Component, request: Option<Request>)
      ensures fresh(c) && c.Valid()
      ensures c.Selected() == InitialSelection(coins)
      ensures Effect(c.State(), request)
           == ChartEffect(InitialSelection(coins), ChartState(store, None), fmt, epochMillis, response, writeAccepted)
    {
      c := new Component(coins, store);
      request := c.RunEffect(fmt, epochMillis, response, writeAccepted);
    }

    /**
     * The fetch: the two early returns, the key, the store lookup, and on a
     * miss one request whose delivered prices are normalised, stored and,
     * if the store took the write, published.
     */
    method FetchChartData(fmt: int -> string, epochMillis: string -> int, response: ChartResponse, writeAccepted: bool)
      returns (request: Option<Request>)
      requires Valid()
      modifies this`cache, this`chartData
      ensures Valid()
      ensures Effect(State(), request) == ChartEffect(Selected(), old(State()), fmt, epochMillis, response, writeAccepted)
    {
      ChartEffectKeepsShowsStored(Selected(), State(), fmt, epochMillis, response, writeAccepted);
      if selectedId == "" {
        return None;
      }
      var cacheKey: string;
      var next: Request;
      if range != Custom {
        next := MarketChart(selectedId, RangeToDays(range));
        cacheKey := CacheKey(selectedId, RangeTag(range), "", "");
      } else {
        if startDate == "" || endDate == "" {
          return None;
        }
        var from := EpochSeconds(epochMillis(startDate));
        var to := EpochSeconds(epochMillis(endDate));
        next := MarketChartRange(selectedId, from, to);
        cacheKey := CacheKey(selectedId, "custom", startDate, endDate);
      }
      if cacheKey in cache {
        chartData := Some(cache[cacheKey]);
        return None;
      }
      request := Some(next);
      match response
      case Received(_, Some(points)) =>
        var payload := ChartPayload(points, fmt);
        if writeAccepted {
          cache := cache[cacheKey := payload];
          chartData := Some(payload);
        }
        // otherwise the refused write is only logged
      case _ =>
        // the failure is only logged
    }

    /** The effect hook: its own guard, then the fetch. */
    method RunEffect(fmt: int -> string, epochMillis: string -> int, response: ChartResponse, writeAccepted: bool)
      returns (request: Option<Request>)
      requires Valid()
      modifies this`cache, this`chartData
      ensures Valid()
      ensures Effect(State(), request) == ChartEffect(Selected(), old(State()), fmt, epochMillis, response, writeAccepted)
    {
      if range == Custom && (startDate == "" || endDate == "") {
        EffectGuardSubsumed(Selected(), State(), fmt, epochMillis, response, writeAccepted);
        return None;
      }
      request := FetchChartData(fmt, epochMillis, response, writeAccepted);
    }

    /** A change of coin, range or dates from the controls; after mounting the hook re-runs only when one of them changed. */
    method Select(coinId: string, r: Range, start: string, end: string,
                  fmt: int -> string, epochMillis: string -> int, response: ChartResponse, writeAccepted: bool)
      returns (request: Option<Request>)
      requires Valid()
      modifies this
      ensures Valid()
      ensures Selected() == Selection(coinId, r, start, end)
      ensures Selected() == old(Selected()) ==> request == None && State() == old(State())
      ensures Selected() != old(Selected()) ==>
        Effect(State(), request) == ChartEffect(Selected(), old(State()), fmt, epochMillis, response, writeAccepted)
    {
      var changed := Selected() != Selection(coinId, r, start, end);
      selectedId, range, startDate, endDate := coinId, r, start, end;
      request := None;
      if changed {
        request := RunEffect(fmt, epochMillis, response, writeAccepted);
      }
    }
  }
}
