/** The quote-polling hook (src/hooks/useStockData.ts): it fetches the batch
    endpoint for a fixed list of symbols and keeps the last answer as a
    dictionary of normalised quotes, with a loading flag, an error message and
    the time of the last success. The polling timer itself is not modelled:
    each call of `FetchStockData` is one tick. */
module StockDataHook {
  import opened Wrappers
  import opened Text
  import opened Types
  import opened StocksRoute

  const FetchFailed := "Failed to fetch stock data"

  /** The quote the hook keeps for key `key`, read from the endpoint's entry by
      the member names of `StockData`; a missing or zero number becomes 0. */
  function NormalizeEntry(key: string, s: StockApiResponse): (d: StockData)
    ensures d.symbol == key
    ensures d.name == (if s.name.Some? && s.name.value != "" then s.name.value else key)
    ensures d.price == s.price
    ensures d.change == s.change.GetOr(0.0) && d.changePercent == s.changePercent.GetOr(0.0)
    ensures d.volume == s.volume.GetOr(0.0) && d.marketCap == s.marketCap.GetOr(0.0)
    ensures d.dividend == s.dividend.GetOr(0.0) && d.dividendYield == s.dividendYield.GetOr(0.0)
    ensures d.lastUpdated == s.lastUpdated
  {
    StockData(
      symbol := key,
      name := StringOr(s.name, key),
      price := s.price,
      change := NumberOr(s.Field("change"), 0.0),
      changePercent := NumberOr(s.Field("changePercent"), 0.0),
      volume := NumberOr(s.Field("volume"), 0.0),
      marketCap := NumberOr(s.Field("marketCap"), 0.0),
      pe := NumberOr(s.Field("pe"), 0.0),
      dividend := NumberOr(s.Field("dividend"), 0.0),
      dividendYield := NumberOr(s.Field("dividendYield"), 0.0),
      lastUpdated := s.lastUpdated)
  }

  /** The hook reads `pe`, a member the endpoint never sends (it sends
      `peRatio`), so every quote the hook keeps has a P/E of 0 whatever the
      provider reported. */
  lemma PeAlwaysZero(key: string, s: StockApiResponse)
    ensures NormalizeEntry(key, s).pe == 0.0
  {
  }

  /** The dictionary built entry by entry from the endpoint's `data`. */
  function NormalizeAll(entries: map<string, StockApiResponse>): map<string, StockData> {
    map k | k in entries :: NormalizeEntry(k, entries[k])
  }

  /** Feeding the endpoint's answer for a symbol list to the hook: the keys are
      exactly the upper-cased symbols the provider knew, each quote is filed
      under its own symbol, and its P/E is 0. */
  lemma {:induction false} HookOverEndpoint(syms: seq<string>, provider: QuoteProvider, now: string, k: string)
    ensures k in NormalizeAll(Collect(syms, provider, now)) <==>
            exists i :: 0 <= i < |syms| && provider(syms[i]).Some? && Upper(syms[i]) == k
    ensures k in NormalizeAll(Collect(syms, provider, now)) ==>
            var d := NormalizeAll(Collect(syms, provider, now))[k];
            d.symbol == k && d.pe == 0.0
  {
    CollectKeys(syms, provider, now, k);
    if k in Collect(syms, provider, now) {
      PeAlwaysZero(k, Collect(syms, provider, now)[k]);
    }
  }

  /** `useStockData({ symbols, interval = 30000, autoRefresh = true })`. */
  class StockDataHook {
    const symbols: seq<string>
    const interval: int
    const autoRefresh: bool
    var data: map<string, StockData>
    var loading: bool
    var error: Option<string>
    /** The time of the last successful fetch, as milliseconds. */
    var lastUpdated: Option<int>

    /** A fresh hook: no data, loading, no error. An omitted option takes its default. */
    constructor (symbols: seq<string>, interval: Option<int>, autoRefresh: Option<bool>)
      ensures this.symbols == symbols
      ensures this.interval == interval.GetOr(30000) && this.autoRefresh == autoRefresh.GetOr(true)
      ensures data == map[] && loading && error.None? && lastUpdated.None?
    {
      this.symbols := symbols;
      this.interval := interval.GetOr(30000);
      this.autoRefresh := autoRefresh.GetOr(true);
      data := map[];
      loading := true;
      error := None;
      lastUpdated := None;
    }

    /** The interval timer is installed only when auto-refresh is on and the period is positive. */
    predicate AutoRefreshEnabled()
      ensures AutoRefreshEnabled() ==> interval > 0
      ensures !autoRefresh ==> !AutoRefreshEnabled()
    {
      autoRefresh && interval > 0
    }

    /** `getStockData(symbol)`: the kept quote for that key, or `null`. */
    function GetStockData(symbol: string): (r: Option<StockData>)
      reads this
      requires Valid()
      ensures r.Some? <==> symbol in data
      ensures r.Some? ==> r.value == data[symbol] && r.value.symbol == symbol
    {
      Lookup(data, symbol)
    }

    /** Every kept quote is filed under its own symbol. */
    ghost predicate Valid()
      reads this
    {
      forall k :: k in data ==> data[k].symbol == k
    }

    /** One fetch (`fetchStockDataHook`). With no symbols nothing is fetched
        and only the loading flag drops. Otherwise the request for the joined
        symbols is sent and `response` is what came back: on success the
        dictionary is replaced wholesale and the time stamped; on failure the
        error is set and the dictionary emptied. Either way loading ends false.
        Returns the `symbols` parameter sent, if any. */
    method FetchStockData(response: Fetched<map<string, StockApiResponse>>, now: int)
      returns (request: Option<string>)
      requires Valid()
      modifies this
      ensures Valid()
      ensures !loading
      ensures symbols == [] ==>
                request.None? && data == old(data) && error == old(error) && lastUpdated == old(lastUpdated)
      ensures symbols != [] ==> request == Some(Join(symbols, ','))
      ensures symbols != [] && response.Received? && response.body.success && response.body.data.Some? ==>
                data == NormalizeAll(response.body.data.value) && error.None? && lastUpdated == Some(now)
      ensures symbols != [] && response.Received? && !(response.body.success && response.body.data.Some?) ==>
                data == map[] && error == Some(StringOr(response.body.error, FetchFailed))
                && lastUpdated == old(lastUpdated)
      ensures symbols != [] && response.Rejected? ==>
                data == map[] && error == Some(response.message.GetOr(FetchFailed))
                && lastUpdated == old(lastUpdated)
    {
      if symbols == [] {
        loading := false;
        return None;
      }
      loading := true;
      error := None;
      request := Some(Join(symbols, ','));
      match response {
        case Received(body) =>
          if body.success && body.data.Some? {
            var entries := body.data.value;
            var dataMap: map<string, StockData> := map[];
            var pending := entries.Keys;
            while pending != {}
              invariant pending <= entries.Keys
              invariant dataMap == map k | k in entries.Keys - pending :: NormalizeEntry(k, entries[k])
              decreases pending
            {
              var k :| k in pending;
              dataMap := dataMap[k := NormalizeEntry(k, entries[k])];
              pending := pending - {k};
            }
            data := dataMap;
            lastUpdated := Some(now);
          } else {
            error := Some(StringOr(body.error, FetchFailed));
            data := map[];
          }
        case Rejected(message) =>
          error := Some(message.GetOr(FetchFailed));
          data := map[];
      }
      loading := false;
    }
  }
}
