/** The holdings table (src/components/PortfolioTable.tsx): from the stored
    holdings and the live prices it derives one display row per holding (the
    current price by fallback, investment, present value, gain/loss and the
    two percentages) and a footer total. Nothing is mutated: each value is a
    `reduce` or a `map`. */
module PortfolioTable {
  import opened Wrappers
  import opened Stock

  /** `purchasePrice * quantity` */
  function InvestmentOf(h: StockHolding): real {
    h.purchasePrice * h.quantity
  }

  /** `liveCmps[name] || cmp || purchasePrice`: the first of the three that is present and non-zero. */
  function CurrentPrice(h: StockHolding, liveCmps: map<string, real>): (p: real)
    ensures h.name in liveCmps && liveCmps[h.name] != 0.0 ==> p == liveCmps[h.name]
    ensures (h.name !in liveCmps || liveCmps[h.name] == 0.0) && h.cmp.Some? && h.cmp.value != 0.0 ==>
              p == h.cmp.value
    ensures (h.name !in liveCmps || liveCmps[h.name] == 0.0) && (h.cmp.None? || h.cmp.value == 0.0) ==>
              p == h.purchasePrice
  {
    NumberOr(Lookup(liveCmps, h.name), NumberOr(h.cmp, h.purchasePrice))
  }

  /** `holdings.reduce((sum, h) => sum + h.purchasePrice * h.quantity, 0)` */
  function TotalInvestment(hs: seq<StockHolding>): real {
    if hs == [] then 0.0 else TotalInvestment(hs[..|hs| - 1]) + InvestmentOf(hs[|hs| - 1])
  }

  /** The sum of the holdings' present values at their current prices. */
  function PresentValueSum(hs: seq<StockHolding>, liveCmps: map<string, real>): real {
    if hs == [] then 0.0
    else PresentValueSum(hs[..|hs| - 1], liveCmps) + CurrentPrice(hs[|hs| - 1], liveCmps) * hs[|hs| - 1].quantity
  }

  /** `whole ? (part / whole) * 100 : 0`: a percentage guarded against a zero denominator. */
  function Percent(part: real, whole: real): (r: real)
    ensures whole == 0.0 ==> r == 0.0
  {
    if whole == 0.0 then 0.0 else part / whole * 100.0
  }

  /** One display row: the holding with its current price and freshly computed derived values. */
  function Row(h: StockHolding, liveCmps: map<string, real>, totalInvestment: real): StockHolding {
    var currentPrice := CurrentPrice(h, liveCmps);
    var presentValue := currentPrice * h.quantity;
    var investment := h.purchasePrice * h.quantity;
    var gainLoss := presentValue - investment;
    h.(cmp := Some(currentPrice),
       presentValue := presentValue,
       investment := investment,
       gainLoss := gainLoss,
       gainLossPercent := Some(Percent(gainLoss, investment)),
       portfolioPercent := Some(Percent(investment, totalInvestment)))
  }

  /** The rows for a given denominator of the portfolio percentage. */
  function Rows(hs: seq<StockHolding>, liveCmps: map<string, real>, totalInvestment: real): (rows: seq<StockHolding>)
    ensures |rows| == |hs|
  {
    seq(|hs|, i requires 0 <= i < |hs| => Row(hs[i], liveCmps, totalInvestment))
  }

  /** `processedHoldings` */
  function ProcessedHoldings(hs: seq<StockHolding>, liveCmps: map<string, real>): (rows: seq<StockHolding>)
    ensures |rows| == |hs|
  {
    Rows(hs, liveCmps, TotalInvestment(hs))
  }

  /** A row describes its holding: the inputs are copied, the price follows the
      fallback chain, the derived values are recomputed from it (so they agree
      with `StockHoldingImpl`'s getters) and both percentages are guarded. */
  lemma RowFacts(h: StockHolding, liveCmps: map<string, real>, total: real)
    ensures var r := Row(h, liveCmps, total);
            && r.name == h.name && r.sector == h.sector && r.exchange == h.exchange
            && r.purchasePrice == h.purchasePrice && r.quantity == h.quantity
            && r.peRatio == h.peRatio && r.latestEarnings == h.latestEarnings
            && r.cmp == Some(CurrentPrice(h, liveCmps))
            && r.investment == h.purchasePrice * h.quantity
            && r.presentValue == CurrentPrice(h, liveCmps) * h.quantity
            && r.gainLoss == r.presentValue - r.investment
            && DerivedAgree(r)
    ensures var r := Row(h, liveCmps, total);
            && (r.investment == 0.0 ==> r.gainLossPercent == Some(0.0))
            && (r.investment != 0.0 ==> r.gainLossPercent == Some(r.gainLoss / r.investment * 100.0))
            && (total == 0.0 ==> r.portfolioPercent == Some(0.0))
            && (total != 0.0 ==> r.portfolioPercent == Some(r.investment / total * 100.0))
  {
  }

  /** Row `i` of the table describes holding `i`, and its portfolio percentage is taken of the total investment. */
  lemma ProcessedRow(hs: seq<StockHolding>, liveCmps: map<string, real>, i: nat)
    requires i < |hs|
    ensures ProcessedHoldings(hs, liveCmps)[i] == Row(hs[i], liveCmps, TotalInvestment(hs))
  {
  }

  /** The rows of a prefix are the prefix of the rows. */
  lemma RowsPrefix(hs: seq<StockHolding>, liveCmps: map<string, real>, total: real)
    requires hs != []
    ensures Rows(hs, liveCmps, total)[..|hs| - 1] == Rows(hs[..|hs| - 1], liveCmps, total)
  {
  }

  /** The footer's `rows.reduce((sum, h) => sum + (h.presentValue || 0), 0)`. */
  function FooterTotalValue(rows: seq<StockHolding>): real {
    if rows == [] then 0.0
    else FooterTotalValue(rows[..|rows| - 1]) + NumberOr(Some(rows[|rows| - 1].presentValue), 0.0)
  }

  lemma {:induction false} FooterOfRows(hs: seq<StockHolding>, liveCmps: map<string, real>, total: real)
    ensures FooterTotalValue(Rows(hs, liveCmps, total)) == PresentValueSum(hs, liveCmps)
  {
    if hs != [] {
      RowsPrefix(hs, liveCmps, total);
      FooterOfRows(hs[..|hs| - 1], liveCmps, total);
    }
  }

  /** The footer's total value is the sum of the holdings' present values at their current prices. */
  lemma FooterTotal(hs: seq<StockHolding>, liveCmps: map<string, real>)
    ensures FooterTotalValue(ProcessedHoldings(hs, liveCmps)) == PresentValueSum(hs, liveCmps)
  {
    FooterOfRows(hs, liveCmps, TotalInvestment(hs));
  }

  /** The sum of the rows' portfolio percentages. */
  function PercentSum(rows: seq<StockHolding>): real {
    if rows == [] then 0.0
    else PercentSum(rows[..|rows| - 1]) + rows[|rows| - 1].portfolioPercent.GetOr(0.0)
  }

  lemma PercentAdd(a: real, b: real, whole: real)
    requires whole != 0.0
    ensures Percent(a, whole) + Percent(b, whole) == Percent(a + b, whole)
  {
  }

  lemma {:induction false} PercentSumOfRows(hs: seq<StockHolding>, liveCmps: map<string, real>, total: real)
    requires total != 0.0
    ensures PercentSum(Rows(hs, liveCmps, total)) == Percent(TotalInvestment(hs), total)
  {
    if hs != [] {
      var init := hs[..|hs| - 1];
      RowsPrefix(hs, liveCmps, total);
      PercentSumOfRows(init, liveCmps, total);
      assert Rows(hs, liveCmps, total)[|hs| - 1].portfolioPercent.GetOr(0.0) == Percent(InvestmentOf(hs[|hs| - 1]), total);
      PercentAdd(TotalInvestment(init), InvestmentOf(hs[|hs| - 1]), total);
    }
  }

  /** With a non-zero total investment the portfolio percentages add up to 100. */
  lemma PortfolioPercentsSumTo100(hs: seq<StockHolding>, liveCmps: map<string, real>)
    requires TotalInvestment(hs) != 0.0
    ensures PercentSum(ProcessedHoldings(hs, liveCmps)) == 100.0
  {
    var total := TotalInvestment(hs);
    PercentSumOfRows(hs, liveCmps, total);
    assert total / total == 1.0;
  }

  /** With no negative investment, each one is at most the total. */
  lemma {:induction false} InvestmentBelowTotal(hs: seq<StockHolding>, i: nat)
    requires i < |hs|
    requires forall j :: 0 <= j < |hs| ==> InvestmentOf(hs[j]) >= 0.0
    ensures 0.0 <= InvestmentOf(hs[i]) <= TotalInvestment(hs)
  {
    var init := hs[..|hs| - 1];
    if i < |hs| - 1 {
      InvestmentBelowTotal(init, i);
    }
    TotalNonNegative(init);
  }

  lemma {:induction false} TotalNonNegative(hs: seq<StockHolding>)
    requires forall j :: 0 <= j < |hs| ==> InvestmentOf(hs[j]) >= 0.0
    ensures TotalInvestment(hs) >= 0.0
  {
    if hs != [] {
      TotalNonNegative(hs[..|hs| - 1]);
    }
  }

  /** With no negative investment and a non-zero total, each portfolio percentage lies in [0, 100]. */
  lemma PortfolioPercentInRange(hs: seq<StockHolding>, liveCmps: map<string, real>, i: nat)
    requires i < |hs|
    requires forall j :: 0 <= j < |hs| ==> InvestmentOf(hs[j]) >= 0.0
    requires TotalInvestment(hs) != 0.0
    ensures var p := ProcessedHoldings(hs, liveCmps)[i].portfolioPercent;
            p.Some? && 0.0 <= p.value <= 100.0
  {
    InvestmentBelowTotal(hs, i);
    var inv, total := InvestmentOf(hs[i]), TotalInvestment(hs);
    FractionInUnit(inv, total);
    ProcessedRow(hs, liveCmps, i);
    var x := inv / total;
    assert ProcessedHoldings(hs, liveCmps)[i].portfolioPercent == Some(Percent(inv, total));
    assert Percent(inv, total) == x * 100.0;
  }

  lemma FractionInUnit(a: real, b: real)
    requires 0.0 <= a <= b && b != 0.0
    ensures 0.0 <= a / b <= 1.0
  {
  }
}
