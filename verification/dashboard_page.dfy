/** The dashboard (src/app/page.tsx): quotes for a fixed list of popular
    symbols through the polling hook, the market overview loaded once from
    the market-data endpoint, and a portfolio summary computed once from the
    holdings in the browser's storage. */
module DashboardPage {
  import opened Wrappers
  import opened Types
  import opened Stock
  import opened PortfolioTable
  import opened PortfolioPage
  import opened StockDataHook

  const PopularStocks: seq<string> := ["AAPL", "GOOGL", "MSFT", "TSLA", "AMZN", "META"]

  const MarketFetchFailed := "Failed to fetch market data"

  /** What the market-overview slot of the page shows. */
  datatype MarketPanel = LoadingMarket | MarketError(message: string) | Overview(data: MarketData) | Empty

  /** The slot's choice: loading first, then an error, then the data if any. */
  function ShownPanel(loading: bool, error: Option<string>, data: Option<MarketData>): (p: MarketPanel)
    ensures p.Overview? ==> !loading && (error.None? || error.value == "") && data == Some(p.data)
    ensures p.MarketError? ==> !loading && error == Some(p.message)
  {
    if loading then LoadingMarket
    else if error.Some? && error.value != "" then MarketError(error.value)
    else if data.Some? then Overview(data.value)
    else Empty
  }

  /** The dashboard's summary of stored holdings: each holding valued at its
      own `cmp`, falling back to its purchase price; live prices play no part. */
  function StoredSummary(saved: Option<seq<StockHolding>>): Totals {
    if saved.Some? then Summary(saved.value, map[]) else NoTotals
  }

  /** Without live prices a holding's current price is its `cmp` when that is
      present and non-zero, and its purchase price otherwise. */
  lemma StoredPrice(h: StockHolding)
    ensures h.cmp.Some? && h.cmp.value != 0.0 ==> CurrentPrice(h, map[]) == h.cmp.value
    ensures h.cmp.None? || h.cmp.value == 0.0 ==> CurrentPrice(h, map[]) == h.purchasePrice
  {
  }

  /** The stored summary counts the stored holdings, and its gain/loss is
      present value minus investment; nothing stored gives all zeros. */
  lemma StoredSummaryTotals(saved: Option<seq<StockHolding>>)
    ensures saved.None? ==> StoredSummary(saved) == NoTotals
    ensures saved.Some? ==>
              && StoredSummary(saved).count == |saved.value|
              && StoredSummary(saved).investment == TotalInvestment(saved.value)
              && StoredSummary(saved).presentValue == PresentValueSum(saved.value, map[])
    ensures StoredSummary(saved).gainLoss == StoredSummary(saved).presentValue - StoredSummary(saved).investment
  {
    if saved.Some? {
      SummaryTotals(saved.value, map[]);
    }
  }

  /** The dashboard and the portfolio page agree on a portfolio none of whose
      holdings has a non-zero live price on the page. */
  lemma {:induction false} DashboardMatchesPortfolioPage(hs: seq<StockHolding>, liveCmps: map<string, real>)
    requires forall i :: 0 <= i < |hs| ==> hs[i].name !in liveCmps || liveCmps[hs[i].name] == 0.0
    ensures StoredSummary(Some(hs)) == Summary(hs, liveCmps)
  {
    if hs != [] {
      var init, h := hs[..|hs| - 1], hs[|hs| - 1];
      DashboardMatchesPortfolioPage(init, liveCmps);
      StoredPrice(h);
      assert CurrentPrice(h, liveCmps) == CurrentPrice(h, map[]);
    }
  }

  /** The dashboard's state. */
  class Dashboard {
    /** `useStockData({ symbols: popularStocks, interval: 30000 })` */
    const quotes: StockDataHook
    var marketData: Option<MarketData>
    var marketError: Option<string>
    var marketLoading: bool
    var portfolioSummary: Totals

    /** The first render: the market data loading, a zero summary, and a quote
        hook over the popular symbols refreshing every 30 seconds. */
    constructor ()
      ensures fresh(quotes)
      ensures quotes.symbols == PopularStocks && quotes.interval == 30000 && quotes.autoRefresh
      ensures quotes.data == map[] && quotes.loading
      ensures marketData.None? && marketError.None? && marketLoading
      ensures portfolioSummary == NoTotals
    {
      quotes := new StockDataHook(PopularStocks, Some(30000), None);
      marketData := None;
      marketError := None;
      marketLoading := true;
      portfolioSummary := NoTotals;
    }

    /** The mount effect that loads the market overview, given what the fetch
        came back with: a successful envelope with data sets it and clears the
        error; any other envelope or a rejection sets an error and clears the
        data. Loading ends false in every case. */
    method LoadMarketData(response: Fetched<MarketData>)
      modifies this`marketData, this`marketError, this`marketLoading
      ensures !marketLoading
      ensures response.Received? && response.body.success && response.body.data.Some? ==>
                marketData == response.body.data && marketError.None?
      ensures response.Received? && !(response.body.success && response.body.data.Some?) ==>
                marketData.None? && marketError == Some(StringOr(response.body.error, MarketFetchFailed))
      ensures response.Rejected? ==>
                marketData.None? && marketError == Some(StringOr(response.message, MarketFetchFailed))
      ensures marketData.Some? <==> marketError.None?
      ensures marketError.Some? ==> marketError.value != ""
      ensures ShownPanel(marketLoading, marketError, marketData).Overview?
              <==> response.Received? && response.body.success && response.body.data.Some?
      ensures ShownPanel(marketLoading, marketError, marketData).MarketError?
              <==> !(response.Received? && response.body.success && response.body.data.Some?)
    {
      marketLoading := true;
      match response {
        case Received(res) =>
          if res.success && res.data.Some? {
            marketData := res.data;
            marketError := None;
          } else {
            marketError := Some(StringOr(res.error, MarketFetchFailed));
            marketData := None;
          }
          marketLoading := false;
        case Rejected(message) =>
          marketError := Some(StringOr(message, MarketFetchFailed));
          marketData := None;
          marketLoading := false;
      }
    }

    /** The mount effect that summarises the stored holdings (`None` when the
        storage entry is missing, empty or unreadable): a running total over
        the holdings, or zeros. */
    method LoadPortfolioSummary(saved: Option<seq<StockHolding>>)
      modifies this`portfolioSummary
      ensures portfolioSummary == StoredSummary(saved)
    {
      if saved.None? {
        portfolioSummary := NoTotals;
        return;
      }
      var holdings := saved.value;
      var totalInvestment := 0.0;
      var totalPresentValue := 0.0;
      var totalGainLoss := 0.0;
      for i := 0 to |holdings|
        invariant Totals(totalInvestment, totalPresentValue, totalGainLoss, i) == Summary(holdings[..i], map[])
      {
        var h := holdings[i];
        SummaryStep(holdings[..i], h, map[]);
        assert holdings[..i + 1] == holdings[..i] + [h];
        StoredPrice(h);
        var investment := h.purchasePrice * h.quantity;
        var presentValue := NumberOr(h.cmp, h.purchasePrice) * h.quantity;
        totalInvestment := totalInvestment + investment;
        totalPresentValue := totalPresentValue + presentValue;
        totalGainLoss := totalGainLoss + (presentValue - investment);
      }
      assert holdings[..|holdings|] == holdings;
      portfolioSummary := Totals(totalInvestment, totalPresentValue, totalGainLoss, |holdings|);
    }
  }
}
