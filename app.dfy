/**
 * The application shell: it loads the market list, ranks it by current price
 * and derives the top-five lists by market capitalisation and by volume.
 *
 * The HTTP answer is a parameter of the continuation that handles it; the
 * clock's formatted time is a parameter too.  Prices, capitalisations and
 * volumes are exact reals and are only compared.
 */
module App {
  import opened Wrappers

  /** One row of the market list. */
  datatype Coin = Coin(
    id: string, symbol: string, name: string, image: string,
    currentPrice: real, priceChangePercentage24h: real, marketCap: real, totalVolume: real)

  /** The fields the shell ranks by. */
  datatype SortField = CurrentPrice | MarketCap | TotalVolume

  function Key(c: Coin, f: SortField): real
  {
    match f
    case CurrentPrice => c.currentPrice
    case MarketCap => c.marketCap
    case TotalVolume => c.totalVolume
  }

  /** Non-increasing in field `f`: what a sort with comparator `(a, b) => b.f - a.f` leaves. */
  predicate SortedDesc(s: seq<Coin>, f: SortField)
  {
    forall p, q :: 0 <= p < q < |s| ==> Key(s[p], f) >= Key(s[q], f)
  }

  /**
   * `top` is a top-`n` list of `coins` by field `f`: it has `min(n, |coins|)`
   * elements, taken from `coins`, non-increasing in `f`, and no coin left out
   * ranks above its last element.
   */
  predicate IsTopSelection(top: seq<Coin>, coins: seq<Coin>, f: SortField, n: nat)
  {
    |top| == (if n < |coins| then n else |coins|) &&
    SortedDesc(top, f) &&
    multiset(top) <= multiset(coins) &&
    (|top| > 0 ==> forall c :: c in multiset(coins) - multiset(top) ==> Key(c, f) <= Key(top[|top| - 1], f))
  }

  /** Exchanges two elements of `a`. */
  method Swap(a: array<Coin>, i: nat, j: nat)
    requires i < j < a.Length
    modifies a
    ensures a[i] == old(a[j]) && a[j] == old(a[i])
    ensures forall m :: 0 <= m < a.Length && m != i && m != j ==> a[m] == old(a[m])
    ensures multiset(a[..]) == multiset(old(a[..]))
  {
    a[i], a[j] := a[j], a[i];
  }

  /** Sorts `a` in place, non-increasing in field `f` (insertion sort, stable). */
  method SortDesc(a: array<Coin>, f: SortField)
    modifies a
    ensures SortedDesc(a[..], f)
    ensures multiset(a[..]) == multiset(old(a[..]))
  {
    var i := 0;
    while i < a.Length
      invariant 0 <= i <= a.Length
      invariant forall p, q :: 0 <= p < q < i ==> Key(a[p], f) >= Key(a[q], f)
      invariant multiset(a[..]) == multiset(old(a[..]))
    {
      var j := i;
      while j > 0 && Key(a[j - 1], f) < Key(a[j], f)
        invariant 0 <= j <= i
        invariant forall p, q :: 0 <= p < q <= i && p != j && q != j ==> Key(a[p], f) >= Key(a[q], f)
        invariant forall q :: j < q <= i ==> Key(a[j], f) >= Key(a[q], f)
        invariant multiset(a[..]) == multiset(old(a[..]))
      {
        Swap(a, j - 1, j);
        j := j - 1;
      }
      i := i + 1;
    }
  }

  /** In a sorted list nothing after position `k` ranks above the element just before it. */
  lemma SortedTailBounded(s: seq<Coin>, f: SortField, k: nat)
    requires SortedDesc(s, f) && 0 < k <= |s|
    ensures forall c :: c in s[k..] ==> Key(c, f) <= Key(s[k - 1], f)
  {
    // each c in s[k..] is some s[k + j], which SortedDesc places below s[k - 1]
  }

  /** Splitting a list at `k`: what the prefix leaves of the whole is the suffix. */
  lemma PrefixLeavesSuffix(s: seq<Coin>, k: nat)
    requires k <= |s|
    ensures multiset(s[..k]) <= multiset(s)
    ensures multiset(s) - multiset(s[..k]) == multiset(s[k..])
  {
    assert s == s[..k] + s[k..];
    assert multiset(s) == multiset(s[..k]) + multiset(s[k..]);
  }

  /** Every prefix of a sorted list is a top selection of the whole list. */
  lemma SortedPrefixIsTop(s: seq<Coin>, f: SortField, n: nat)
    requires SortedDesc(s, f)
    ensures IsTopSelection(s[..if n < |s| then n else |s|], s, f, n)
  {
    var k := if n < |s| then n else |s|;
    var top := s[..k];
    PrefixLeavesSuffix(s, k);
    assert SortedDesc(top, f);
    if k > 0 {
      SortedTailBounded(s, f, k);
      assert top[k - 1] == s[k - 1];
    }
    assert IsTopSelection(top, s, f, n);
  }

  /** `[...coins].sort(by f, descending).slice(0, n)`: copy, sort the copy, keep the first `n`. */
  method TakeTop(coins: seq<Coin>, f: SortField, n: nat) returns (top: seq<Coin>)
    ensures IsTopSelection(top, coins, f, n)
  {
    var copy := new Coin[|coins|](i requires 0 <= i < |coins| => coins[i]);
    assert copy[..] == coins;
    SortDesc(copy, f);
    SortedPrefixIsTop(copy[..], f, n);
    top := copy[..if n < copy.Length then n else copy.Length];
  }

  const FetchFailedMessage: string := "Failed to fetch data"

  /** The JSON body of an answer: a list of coins, or something the chain fails on, with the error's message. */
  datatype Body = CoinList(coins: seq<Coin>) | Malformed(message: string)

  /** What the market-list fetch yields: a rejection with its message, or an HTTP answer. */
  datatype MarketResponse = NetworkFailure(message: string) | HttpResponse(ok: bool, body: Body)

  /** The message the `catch` handler receives, or None when the chain reaches the success handler. */
  function FailureMessage(response: MarketResponse): (m: Option<string>)
    ensures m.None? <==> response.HttpResponse? && response.ok && response.body.CoinList?
    ensures response.HttpResponse? && !response.ok ==> m == Some(FetchFailedMessage)
    ensures response.NetworkFailure? ==> m == Some(response.message)
    ensures response.HttpResponse? && response.ok && response.body.Malformed? ==> m == Some(response.body.message)
  {
    match response
    case NetworkFailure(message) => Some(message)
    case HttpResponse(false, _) => Some(FetchFailedMessage)
    case HttpResponse(true, Malformed(message)) => Some(message)
    case HttpResponse(true, CoinList(_)) => None
  }

  /** The shell's state: the ranked coins, the loading and error flags and the time of the last load. */
  class Component {
    var coins: seq<Coin>
    var loading: bool
    var error: Option<string>
    var lastUpdated: string

    constructor ()
      ensures coins == [] && loading && error == None && lastUpdated == ""
    {
      coins := [];
      loading := true;
      error := None;
      lastUpdated := "";
    }

    /** Starting a load: on, and no error; the request itself is answered by OnFetchSettled. */
    method FetchData()
      modifies this`loading, this`error
      ensures loading && error == None
    {
      loading := true;
      error := None;
    }

    /**
     * The fetch's promise chain.  A coin list is sorted in place by current
     * price, descending, and becomes `coins`; every failure, a non-ok status
     * included, sets the error message and leaves the list as it was.  Either
     * way loading ends.
     */
    method OnFetchSettled(response: MarketResponse, now: string)
      modifies this`coins, this`loading, this`error, this`lastUpdated
      ensures !loading
      ensures FailureMessage(response).Some? ==>
        error == FailureMessage(response) && coins == old(coins) && lastUpdated == old(lastUpdated)
      ensures FailureMessage(response).None? ==>
        error == old(error) && lastUpdated == now &&
        SortedDesc(coins, CurrentPrice) && multiset(coins) == multiset(response.body.coins)
    {
      var failure := FailureMessage(response);
      if failure.Some? {
        error := failure;
        loading := false;
        return;
      }
      var received := response.body.coins;
      var data := new Coin[|received|](i requires 0 <= i < |received| => received[i]);
      assert data[..] == received;
      SortDesc(data, CurrentPrice);
      coins := data[..];
      lastUpdated := now;
      loading := false;
    }

    /** The five largest coins by market capitalisation, from a copy: `coins` keeps its order. */
    method Top5MarketCap() returns (top: seq<Coin>)
      ensures IsTopSelection(top, coins, MarketCap, 5)
    {
      top := TakeTop(coins, MarketCap, 5);
    }

    /** The five largest coins by volume, from a copy: `coins` keeps its order. */
    method Top5Volume() returns (top: seq<Coin>)
      ensures IsTopSelection(top, coins, TotalVolume, 5)
    {
      top := TakeTop(coins, TotalVolume, 5);
    }
  }
}
