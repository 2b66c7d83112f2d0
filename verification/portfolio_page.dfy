/** The portfolio page (src/app/portfolio/page.tsx): the user's holdings, the
    latest live prices, the add-holding form, persistence of the holdings in
    the browser's storage, the periodic live-price refresh, and the portfolio
    and per-sector summaries shown above the table. */
module PortfolioPage {
  import opened Wrappers
  import opened Text
  import opened Types
  import opened Stock
  import opened StocksRoute
  import opened PortfolioTable

  /** An entry of the quick-add list. */
  datatype SampleStock = SampleStock(symbol: string, name: string, sector: string)

  const SampleStocks: seq<SampleStock> := [
    SampleStock("AAPL", "Apple Inc.", "Technology"),
    SampleStock("GOOGL", "Alphabet Inc.", "Technology"),
    SampleStock("MSFT", "Microsoft Corporation", "Technology"),
    SampleStock("TSLA", "Tesla Inc.", "Consumer Goods"),
    SampleStock("AMZN", "Amazon.com Inc.", "Consumer Goods"),
    SampleStock("META", "Meta Platforms Inc.", "Technology")
  ]

  /** The add-holding form. */
  datatype HoldingForm = HoldingForm(
    symbol: string,
    sector: string,
    exchange: Exchange,
    purchasePrice: real,
    quantity: real)

  const BlankForm := HoldingForm("", "Technology", SP, 0.0, 0.0)

  /** The endpoint's `data` dictionary. */
  type Quotes = map<string, StockApiResponse>

  /** How `data.success && data.data[key]` turns out: the call threw (the
      request failed, or the envelope says success without a `data`
      dictionary, so indexing `undefined` throws), or it answered, with the
      entry when the envelope says success and has the key. */
  datatype QuoteLookup = Threw | Answered(entry: Option<StockApiResponse>)

  function LookupQuote(response: Fetched<Quotes>, key: string): (r: QuoteLookup)
    ensures r.Threw? <==> response.Rejected? || (response.body.success && response.body.data.None?)
    ensures (response.Received? && response.body.success && response.body.data.Some?
             && key in response.body.data.value) ==> r == Answered(Some(response.body.data.value[key]))
    ensures r.Answered? && r.entry.Some? ==>
              response.Received? && response.body.success && response.body.data.Some?
              && key in response.body.data.value && r.entry.value == response.body.data.value[key]
  {
    match response
    case Rejected(_) => Threw
    case Received(body) =>
      if !body.success then Answered(None)
      else if body.data.None? then Threw
      else Answered(Lookup(body.data.value, key))
  }

  /** `SAMPLE_STOCKS.find(s => s.symbol === symbol)?.sector || 'Technology'` */
  function SampleSector(symbol: string): string {
    StringOr(FindSample(SampleStocks, symbol), "Technology")
  }

  function FindSample(samples: seq<SampleStock>, symbol: string): (r: Option<string>)
    ensures r.Some? <==> exists i :: 0 <= i < |samples| && samples[i].symbol == symbol
    ensures r.Some? ==> exists i :: 0 <= i < |samples| && samples[i].symbol == symbol && r.value == samples[i].sector
                                     && forall j :: 0 <= j < i ==> samples[j].symbol != symbol
  {
    if samples == [] then None
    else if samples[0].symbol == symbol then Some(samples[0].sector)
    else FindSample(samples[1..], symbol)
  }

  // ---------------------------------------------------------------- adding

  /** The form passes `addHolding`'s check: a symbol, a positive price and a positive quantity. */
  predicate FormComplete(form: HoldingForm) {
    form.symbol != "" && form.purchasePrice > 0.0 && form.quantity > 0.0
  }

  /** The holding `addHolding` appends, given the endpoint's entry for the
      upper-cased symbol if there was one: without an entry the current price
      is the purchase price and P/E and earnings are 0. */
  function NewHolding(form: HoldingForm, found: Option<StockApiResponse>): StockHolding {
    var currentPrice := if found.Some? then found.value.price else form.purchasePrice;
    var peRatio := if found.Some? then found.value.peRatio else 0.0;
    var earnings := if found.Some? then found.value.earnings else 0.0;
    StockHolding(
      name := Upper(form.symbol),
      sector := form.sector,
      exchange := form.exchange,
      purchasePrice := form.purchasePrice,
      quantity := form.quantity,
      peRatio := Some(peRatio),
      latestEarnings := Some(earnings),
      cmp := Some(currentPrice),
      investment := form.purchasePrice * form.quantity,
      presentValue := currentPrice * form.quantity,
      gainLoss := (currentPrice - form.purchasePrice) * form.quantity,
      portfolioPercent := Some(0.0),
      gainLossPercent := Some(0.0))
  }

  /** The stored derived values of a new holding are exactly what `StockHoldingImpl`'s getters
      compute from it, and a holding added at the price it was bought at shows no gain or loss. */
  lemma NewHoldingAgrees(form: HoldingForm, found: Option<StockApiResponse>)
    ensures var h := NewHolding(form, found);
            && DerivedAgree(h)
            && h.cmp.Some?
            && (h.cmp.value == form.purchasePrice ==> h.gainLoss == 0.0)
  {
  }

  // -------------------------------------------------------------- removing

  /** `holdings.filter(h => h.name !== symbol)` */
  function Without(hs: seq<StockHolding>, symbol: string): seq<StockHolding> {
    if hs == [] then []
    else (if hs[0].name != symbol then [hs[0]] else []) + Without(hs[1..], symbol)
  }

  /** Removal keeps exactly the holdings with another name. */
  lemma {:induction false} WithoutMembers(hs: seq<StockHolding>, symbol: string, h: StockHolding)
    ensures h in Without(hs, symbol) <==> h in hs && h.name != symbol
  {
    if hs != [] {
      WithoutMembers(hs[1..], symbol, h);
      assert hs == [hs[0]] + hs[1..];
    }
  }

  /** Removal works piece by piece, so the kept holdings stay in their original order. */
  lemma {:induction false} WithoutAppend(a: seq<StockHolding>, b: seq<StockHolding>, symbol: string)
    ensures Without(a + b, symbol) == Without(a, symbol) + Without(b, symbol)
  {
    if a != [] {
      assert (a + b)[1..] == a[1..] + b;
      WithoutAppend(a[1..], b, symbol);
    } else {
      assert a + b == b;
    }
  }

  /** Removing a name twice is removing it once. */
  lemma {:induction false} WithoutIdempotent(hs: seq<StockHolding>, symbol: string)
    ensures Without(Without(hs, symbol), symbol) == Without(hs, symbol)
  {
    if hs != [] {
      WithoutIdempotent(hs[1..], symbol);
      var rest := Without(hs[1..], symbol);
      if hs[0].name != symbol {
        assert Without(hs, symbol) == [hs[0]] + rest;
        WithoutAppend([hs[0]], rest, symbol);
        assert [hs[0]][1..] == [];
        assert Without([hs[0]], symbol) == [hs[0]] + Without([], symbol);
      } else {
        assert Without(hs, symbol) == [] + rest;
        assert [] + rest == rest;
      }
    }
  }

  /** Removing a name nobody holds changes nothing. */
  lemma {:induction false} WithoutAbsent(hs: seq<StockHolding>, symbol: string)
    requires forall i :: 0 <= i < |hs| ==> hs[i].name != symbol
    ensures Without(hs, symbol) == hs
  {
    if hs != [] {
      WithoutAbsent(hs[1..], symbol);
      assert hs == [hs[0]] + hs[1..];
    }
  }

  // ------------------------------------------------------ live-price refresh

  /** One holding after a successful refresh: a holding the answer has an entry
      for takes its price, P/E and earnings; any other stays as it was. The
      stored derived values are carried over unchanged by the object spread. */
  function Refreshed(h: StockHolding, quotes: Quotes): (r: StockHolding)
    ensures h.name !in quotes ==> r == h
    ensures h.name in quotes ==>
              r == h.(cmp := Some(quotes[h.name].price),
                      peRatio := Some(quotes[h.name].peRatio),
                      latestEarnings := Some(quotes[h.name].earnings))
  {
    if h.name in quotes then
      var q := quotes[h.name];
      h.(cmp := Some(q.price), peRatio := Some(q.peRatio), latestEarnings := Some(q.earnings))
    else h
  }

  /** The holdings' names, in order (`holdings.map(h => h.name)`). */
  function NameList(hs: seq<StockHolding>): (names: seq<string>)
    ensures |names| == |hs| && forall i :: 0 <= i < |hs| ==> names[i] == hs[i].name
  {
    seq(|hs|, i requires 0 <= i < |hs| => hs[i].name)
  }

  /** The names of the holdings. */
  function Names(hs: seq<StockHolding>): set<string> {
    set i | 0 <= i < |hs| :: hs[i].name
  }

  /** The live prices after a successful refresh: exactly the held names the
      answer has an entry for, each with that entry's price. */
  function FoundPrices(hs: seq<StockHolding>, quotes: Quotes): (m: map<string, real>)
    ensures m.Keys == Names(hs) * quotes.Keys
    ensures forall n :: n in m ==> m[n] == quotes[n].price
  {
    map n | n in Names(hs) && n in quotes :: quotes[n].price
  }

  /** The live prices grow holding by holding, a later holding of the same name overwriting. */
  lemma FoundPricesStep(hs: seq<StockHolding>, quotes: Quotes, i: nat)
    requires i < |hs|
    ensures hs[i].name in quotes ==>
              FoundPrices(hs[..i + 1], quotes) == FoundPrices(hs[..i], quotes)[hs[i].name := quotes[hs[i].name].price]
    ensures hs[i].name !in quotes ==> FoundPrices(hs[..i + 1], quotes) == FoundPrices(hs[..i], quotes)
  {
  }

  /** The `holdings.map` of a successful refresh: every holding the answer
      covers is refreshed, and its price recorded as a live price. */
  method ApplyQuotes(holdings: seq<StockHolding>, quotes: Quotes)
    returns (updated: seq<StockHolding>, newCmps: map<string, real>)
    ensures |updated| == |holdings|
    ensures forall i :: 0 <= i < |holdings| ==> updated[i] == Refreshed(holdings[i], quotes)
    ensures newCmps == FoundPrices(holdings, quotes)
  {
    newCmps := map[];
    updated := [];
    for i := 0 to |holdings|
      invariant |updated| == i
      invariant forall j :: 0 <= j < i ==> updated[j] == Refreshed(holdings[j], quotes)
      invariant newCmps == FoundPrices(holdings[..i], quotes)
    {
      var holding := holdings[i];
      FoundPricesStep(holdings, quotes, i);
      if holding.name in quotes {
        var stockData := quotes[holding.name];
        newCmps := newCmps[holding.name := stockData.price];
      }
      updated := updated + [Refreshed(holding, quotes)];
    }
    assert holdings[..|holdings|] == holdings;
  }

  /** A successful refresh never changes which holding sits where, nor any
      holding's inputs: name, sector, exchange, purchase price and quantity. */
  lemma RefreshedKeepsInputs(h: StockHolding, quotes: Quotes)
    ensures var r := Refreshed(h, quotes);
            && r.name == h.name && r.sector == h.sector && r.exchange == h.exchange
            && r.purchasePrice == h.purchasePrice && r.quantity == h.quantity
            && r.investment == h.investment && r.presentValue == h.presentValue && r.gainLoss == h.gainLoss
  {
  }

  /** After a successful refresh the table's current price of every holding the
      answer covers is that answer's price, when non-zero. */
  lemma RefreshedPriceWins(hs: seq<StockHolding>, quotes: Quotes, i: nat)
    requires i < |hs| && hs[i].name in quotes && quotes[hs[i].name].price != 0.0
    ensures CurrentPrice(Refreshed(hs[i], quotes), FoundPrices(hs, quotes)) == quotes[hs[i].name].price
  {
  }

  // ----------------------------------------------------------- aggregation

  /** Investment, present value, gain/loss and number of holdings of a group of
      holdings; the shape of both the portfolio summary and a sector summary. */
  datatype Totals = Totals(investment: real, presentValue: real, gainLoss: real, count: nat)

  const NoTotals := Totals(0.0, 0.0, 0.0, 0)

  /** One holding added to running totals, valued at its current price. */
  function Tally(t: Totals, h: StockHolding, liveCmps: map<string, real>): Totals {
    var presentValue := CurrentPrice(h, liveCmps) * h.quantity;
    var investment := h.purchasePrice * h.quantity;
    var gainLoss := presentValue - investment;
    Totals(t.investment + investment, t.presentValue + presentValue, t.gainLoss + gainLoss, t.count + 1)
  }

  /** `portfolioSummary`: the `reduce` from zero totals. (The summed gain/loss
      percentage is not part of it; see the README.) */
  function Summary(hs: seq<StockHolding>, liveCmps: map<string, real>): Totals {
    if hs == [] then NoTotals else Tally(Summary(hs[..|hs| - 1], liveCmps), hs[|hs| - 1], liveCmps)
  }

  /** The summary counts the holdings, its investment is the table's total
      investment, its present value the sum of present values at current
      prices, and its gain/loss the difference of the two. */
  lemma {:induction false} SummaryTotals(hs: seq<StockHolding>, liveCmps: map<string, real>)
    ensures var s := Summary(hs, liveCmps);
            && s.count == |hs|
            && s.investment == TotalInvestment(hs)
            && s.presentValue == PresentValueSum(hs, liveCmps)
            && s.gainLoss == s.presentValue - s.investment
  {
    if hs != [] {
      SummaryTotals(hs[..|hs| - 1], liveCmps);
    }
  }

  /** The summary's present value is the table footer's total value, and its
      investment the total the table's portfolio percentages are taken of. */
  lemma SummaryMatchesTable(hs: seq<StockHolding>, liveCmps: map<string, real>)
    ensures Summary(hs, liveCmps).presentValue == FooterTotalValue(ProcessedHoldings(hs, liveCmps))
    ensures Summary(hs, liveCmps).investment == TotalInvestment(hs)
  {
    SummaryTotals(hs, liveCmps);
    FooterTotal(hs, liveCmps);
  }

  function Plus(a: Totals, b: Totals): Totals {
    Totals(a.investment + b.investment, a.presentValue + b.presentValue, a.gainLoss + b.gainLoss, a.count + b.count)
  }

  /** The holdings of one sector, in order. */
  function InSector(hs: seq<StockHolding>, sector: string): (r: seq<StockHolding>)
    ensures |r| <= |hs|
  {
    if hs == [] then []
    else InSector(hs[..|hs| - 1], sector) + (if hs[|hs| - 1].sector == sector then [hs[|hs| - 1]] else [])
  }

  /** The sectors present. */
  function SectorSet(hs: seq<StockHolding>): set<string> {
    set i | 0 <= i < |hs| :: hs[i].sector
  }

  /** The sectors present, each once, in order of first appearance. */
  function Sectors(hs: seq<StockHolding>): seq<string> {
    if hs == [] then []
    else
      var before := Sectors(hs[..|hs| - 1]);
      if hs[|hs| - 1].sector in before then before else before + [hs[|hs| - 1].sector]
  }

  /** The summary of each listed sector, added up. */
  function SumOverSectors(sectors: seq<string>, hs: seq<StockHolding>, liveCmps: map<string, real>): Totals {
    if sectors == [] then NoTotals
    else Plus(SumOverSectors(sectors[..|sectors| - 1], hs, liveCmps),
              Summary(InSector(hs, sectors[|sectors| - 1]), liveCmps))
  }

  lemma SectorSetStep(hs: seq<StockHolding>)
    requires hs != []
    ensures SectorSet(hs) == SectorSet(hs[..|hs| - 1]) + {hs[|hs| - 1].sector}
  {
  }

  /** `Sectors` lists each present sector exactly once. */
  lemma {:induction false} SectorsExact(hs: seq<StockHolding>)
    ensures forall s :: s in Sectors(hs) <==> s in SectorSet(hs)
    ensures forall i, j :: 0 <= i < j < |Sectors(hs)| ==> Sectors(hs)[i] != Sectors(hs)[j]
  {
    if hs != [] {
      SectorsExact(hs[..|hs| - 1]);
      SectorSetStep(hs);
    }
  }

  /** A sector nobody is in has no holdings. */
  lemma {:induction false} InSectorAbsent(hs: seq<StockHolding>, sector: string)
    requires sector !in SectorSet(hs)
    ensures InSector(hs, sector) == []
  {
    if hs != [] {
      SectorSetStep(hs);
      InSectorAbsent(hs[..|hs| - 1], sector);
    }
  }

  lemma SummaryStep(hs: seq<StockHolding>, h: StockHolding, liveCmps: map<string, real>)
    ensures Summary(hs + [h], liveCmps) == Tally(Summary(hs, liveCmps), h, liveCmps)
  {
  }

  lemma InSectorStep(hs: seq<StockHolding>, h: StockHolding, sector: string)
    ensures h.sector == sector ==> InSector(hs + [h], sector) == InSector(hs, sector) + [h]
    ensures h.sector != sector ==> InSector(hs + [h], sector) == InSector(hs, sector)
  {
  }

  lemma TallyPlus(a: Totals, b: Totals, h: StockHolding, liveCmps: map<string, real>)
    ensures Tally(Plus(a, b), h, liveCmps) == Plus(a, Tally(b, h, liveCmps))
    ensures Tally(Plus(a, b), h, liveCmps) == Plus(Tally(a, h, liveCmps), b)
  {
  }

  /** Adding a holding leaves the sum over a list of sectors alone if its own sector is not listed. */
  lemma {:induction false} SumOverOtherSectors(sectors: seq<string>, hs: seq<StockHolding>, h: StockHolding,
                                               liveCmps: map<string, real>)
    requires h.sector !in sectors
    ensures SumOverSectors(sectors, hs + [h], liveCmps) == SumOverSectors(sectors, hs, liveCmps)
  {
    if sectors != [] {
      var init, last := sectors[..|sectors| - 1], sectors[|sectors| - 1];
      assert h.sector !in init && h.sector != last;
      SumOverOtherSectors(init, hs, h, liveCmps);
      InSectorStep(hs, h, last);
      assert InSector(hs + [h], last) == InSector(hs, last);
    }
  }

  /** Adding a holding whose sector is listed once adds it to the sum over the list. */
  lemma {:induction false} SumOverOwnSector(sectors: seq<string>, hs: seq<StockHolding>, h: StockHolding,
                                            liveCmps: map<string, real>)
    requires forall i, j :: 0 <= i < j < |sectors| ==> sectors[i] != sectors[j]
    requires h.sector in sectors
    ensures SumOverSectors(sectors, hs + [h], liveCmps) == Tally(SumOverSectors(sectors, hs, liveCmps), h, liveCmps)
  {
    var init, last := sectors[..|sectors| - 1], sectors[|sectors| - 1];
    var rest := SumOverSectors(init, hs, liveCmps);
    var own := Summary(InSector(hs, last), liveCmps);
    var rest', own' := SumOverSectors(init, hs + [h], liveCmps), Summary(InSector(hs + [h], last), liveCmps);
    assert SumOverSectors(sectors, hs, liveCmps) == Plus(rest, own);
    assert SumOverSectors(sectors, hs + [h], liveCmps) == Plus(rest', own');
    InSectorStep(hs, h, last);
    if h.sector == last {
      assert h.sector !in init;
      SumOverOtherSectors(init, hs, h, liveCmps);
      SummaryStep(InSector(hs, last), h, liveCmps);
      assert rest' == rest && own' == Tally(own, h, liveCmps);
    } else {
      assert sectors == init + [last];
      assert h.sector in init;
      SumOverOwnSector(init, hs, h, liveCmps);
      assert rest' == Tally(rest, h, liveCmps) && own' == own;
    }
    TallyPlus(rest, own, h, liveCmps);
  }

  /** The sector summaries decompose the portfolio summary: added up over the
      sectors present, their investments, present values, gains/losses and
      counts are the portfolio's. */
  lemma {:induction false} SectorsDecompose(hs: seq<StockHolding>, liveCmps: map<string, real>)
    ensures SumOverSectors(Sectors(hs), hs, liveCmps) == Summary(hs, liveCmps)
  {
    if hs != [] {
      var init, h := hs[..|hs| - 1], hs[|hs| - 1];
      assert hs == init + [h];
      var before := Sectors(init);
      SectorsDecompose(init, liveCmps);
      SectorsExact(init);
      SummaryStep(init, h, liveCmps);
      if h.sector in before {
        SumOverOwnSector(before, init, h, liveCmps);
      } else {
        assert Sectors(hs) == before + [h.sector];
        assert (before + [h.sector])[..|before|] == before;
        SumOverOtherSectors(before, init, h, liveCmps);
        InSectorAbsent(init, h.sector);
        InSectorStep(init, h, h.sector);
        assert InSector(hs, h.sector) == [h];
        SummaryStep([], h, liveCmps);
        TallyPlus(Summary(init, liveCmps), NoTotals, h, liveCmps);
      }
    }
  }

  /** `m` holds, for each sector present in `hs`, that sector's summary. */
  ghost predicate SectorTable(m: map<string, Totals>, hs: seq<StockHolding>, liveCmps: map<string, real>) {
    && m.Keys == SectorSet(hs)
    && forall s :: s in m ==> m[s] == Summary(InSector(hs, s), liveCmps)
  }

  /** Tallying one more holding into its sector's entry (zero if absent) keeps the table right. */
  lemma SectorTableStep(m: map<string, Totals>, hs: seq<StockHolding>, h: StockHolding, liveCmps: map<string, real>)
    requires SectorTable(m, hs, liveCmps)
    ensures var t := if h.sector in m then m[h.sector] else NoTotals;
            SectorTable(m[h.sector := Tally(t, h, liveCmps)], hs + [h], liveCmps)
  {
    var t := if h.sector in m then m[h.sector] else NoTotals;
    var m' := m[h.sector := Tally(t, h, liveCmps)];
    assert (hs + [h])[..|hs|] == hs;
    SectorSetStep(hs + [h]);
    if h.sector !in m {
      InSectorAbsent(hs, h.sector);
    }
    forall s | s in m'
      ensures m'[s] == Summary(InSector(hs + [h], s), liveCmps)
    {
      InSectorStep(hs, h, s);
      if s == h.sector {
        SummaryStep(InSector(hs, s), h, liveCmps);
      }
    }
  }

  /** `sectorSummaries`: the dictionary from sector to that sector's totals,
      filled holding by holding; a sector seen for the first time starts from zero totals. */
  method SectorSummaries(hs: seq<StockHolding>, liveCmps: map<string, real>)
    returns (sectors: map<string, Totals>)
    ensures sectors.Keys == SectorSet(hs)
    ensures forall s :: s in sectors ==> sectors[s] == Summary(InSector(hs, s), liveCmps)
  {
    sectors := map[];
    for i := 0 to |hs|
      invariant SectorTable(sectors, hs[..i], liveCmps)
    {
      var h := hs[i];
      SectorTableStep(sectors, hs[..i], h, liveCmps);
      assert hs[..i + 1] == hs[..i] + [h];
      var t := if h.sector in sectors then sectors[h.sector] else NoTotals;
      sectors := sectors[h.sector := Tally(t, h, liveCmps)];
    }
    assert hs[..|hs|] == hs;
  }

  /** The storage write guard: only once mounted, and never an empty list. */
  predicate ShouldPersist(mounted: bool, hs: seq<StockHolding>) {
    mounted && |hs| > 0
  }

  /** The portfolio page's state. */
  class PortfolioPage {
    var holdings: seq<StockHolding>
    var liveCmps: map<string, real>
    var loading: bool
    var error: Option<string>
    var mounted: bool
    var showAddForm: bool
    var newHolding: HoldingForm
    /** The browser storage entry 'portfolio-holdings', decoded; `None` when it is missing or unreadable. */
    var storage: Option<seq<StockHolding>>

    /** The page before mounting, over whatever the storage holds. */
    constructor (storage: Option<seq<StockHolding>>)
      ensures this.storage == storage
      ensures holdings == [] && liveCmps == map[] && !loading && error.None? && !mounted
      ensures !showAddForm && newHolding == BlankForm
    {
      this.storage := storage;
      holdings := [];
      liveCmps := map[];
      loading := false;
      error := None;
      mounted := false;
      showAddForm := false;
      newHolding := BlankForm;
    }

    /** Mounting: the stored holdings are loaded if they can be read, then the page counts as mounted. */
    method Mount()
      modifies this`holdings, this`mounted
      ensures holdings == (if storage.Some? then storage.value else old(holdings))
      ensures mounted
    {
      if storage.Some? {
        holdings := storage.value;
      }
      mounted := true;
    }

    /** The effect run after the holdings change: write them to storage when
        mounted and non-empty, otherwise leave the stored list alone. */
    method SaveHoldings()
      modifies this`storage
      ensures storage == (if ShouldPersist(mounted, holdings) then Some(holdings) else old(storage))
    {
      if mounted && |holdings| > 0 {
        storage := Some(holdings);
      }
    }

    /** One run of `fetchLiveData` (only ever started once mounted). With no
        holdings nothing happens. Otherwise the names are requested, joined by
        commas, and `response` is the reply: a successful one refreshes the
        holdings it covers and replaces the live prices; any other outcome sets
        an error and leaves both alone. Loading ends false. */
    method RefreshLiveData(response: Fetched<Quotes>) returns (request: Option<string>)
      modifies this`holdings, this`liveCmps, this`loading, this`error
      ensures !mounted || old(holdings) == [] ==>
                request.None? && holdings == old(holdings) && liveCmps == old(liveCmps)
                && loading == old(loading) && error == old(error)
      ensures mounted && old(holdings) != [] ==>
                && request == Some(Join(NameList(old(holdings)), ','))
                && !loading
      ensures mounted && old(holdings) != [] && response.Received? && response.body.success && response.body.data.Some? ==>
                var quotes := response.body.data.value;
                && |holdings| == |old(holdings)|
                && (forall i :: 0 <= i < |holdings| ==> holdings[i] == Refreshed(old(holdings)[i], quotes))
                && liveCmps == FoundPrices(old(holdings), quotes)
                && error.None?
      ensures mounted && old(holdings) != [] && response.Received? && !(response.body.success && response.body.data.Some?) ==>
                holdings == old(holdings) && liveCmps == old(liveCmps)
                && error == Some(StringOr(response.body.error, "Failed to fetch live data"))
      ensures mounted && old(holdings) != [] && response.Rejected? ==>
                holdings == old(holdings) && liveCmps == old(liveCmps)
                && error == Some("Network error while fetching live data")
    {
      if !mounted || holdings == [] {
        return None;
      }
      loading := true;
      request := Some(Join(NameList(holdings), ','));
      match response {
        case Received(body) =>
          if body.success && body.data.Some? {
            var quotes := body.data.value;
            var updated, newCmps := ApplyQuotes(holdings, quotes);
            holdings := updated;
            liveCmps := newCmps;
            error := None;
          } else {
            error := Some(StringOr(body.error, "Failed to fetch live data"));
          }
        case Rejected(_) =>
          error := Some("Network error while fetching live data");
      }
      loading := false;
    }

    /** `handleStockSelection(symbol)`: the form takes the symbol; for a
        non-empty one the price is looked up and, when the endpoint answers
        with an entry under exactly that symbol, the form also takes the
        quick-add sector (default 'Technology') and the live price as purchase
        price. A failed lookup leaves the rest of the form alone. */
    method HandleStockSelection(symbol: string, response: Fetched<Quotes>)
      modifies this`newHolding
      ensures var lookup := LookupQuote(response, symbol);
              if symbol != "" && lookup.Answered? && lookup.entry.Some? then
                newHolding == old(newHolding).(symbol := symbol, sector := SampleSector(symbol),
                                               purchasePrice := lookup.entry.value.price)
              else
                newHolding == old(newHolding).(symbol := symbol)
    {
      newHolding := newHolding.(symbol := symbol);
      if symbol != "" {
        var lookup := LookupQuote(response, symbol);
        if lookup.Answered? && lookup.entry.Some? {
          newHolding := newHolding.(symbol := symbol, sector := SampleSector(symbol),
                                    purchasePrice := lookup.entry.value.price);
        }
      }
    }

    /** `addHolding`: an incomplete form changes nothing. Otherwise the
        upper-cased symbol is requested; if that throws nothing changes,
        else exactly one holding is appended, built from the form and the
        entry found (if any), and the form is reset and closed. */
    method AddHolding(response: Fetched<Quotes>) returns (request: Option<string>)
      modifies this`holdings, this`newHolding, this`showAddForm
      ensures !FormComplete(old(newHolding)) ==>
                request.None? && holdings == old(holdings) && newHolding == old(newHolding)
                && showAddForm == old(showAddForm)
      ensures FormComplete(old(newHolding)) ==> request == Some(Upper(old(newHolding).symbol))
      ensures FormComplete(old(newHolding)) && LookupQuote(response, Upper(old(newHolding).symbol)).Threw? ==>
                holdings == old(holdings) && newHolding == old(newHolding) && showAddForm == old(showAddForm)
      ensures var lookup := LookupQuote(response, Upper(old(newHolding).symbol));
              FormComplete(old(newHolding)) && lookup.Answered? ==>
                holdings == old(holdings) + [NewHolding(old(newHolding), lookup.entry)]
                && newHolding == BlankForm && !showAddForm
    {
      if !(newHolding.symbol != "" && newHolding.purchasePrice > 0.0 && newHolding.quantity > 0.0) {
        return None;
      }
      var key := Upper(newHolding.symbol);
      request := Some(key);
      var lookup := LookupQuote(response, key);
      if lookup.Threw? {
        return;
      }
      holdings := holdings + [NewHolding(newHolding, lookup.entry)];
      newHolding := BlankForm;
      showAddForm := false;
    }

    /** `removeHolding(symbol)` */
    method RemoveHolding(symbol: string)
      modifies this`holdings
      ensures holdings == Without(old(holdings), symbol)
    {
      holdings := Without(holdings, symbol);
    }

    /** `quickAddStock(stock)`: the form is filled with the sample's symbol and
        sector, exchange 'S&P', quantity 0 and the live price as purchase
        price (0 when there is none or the request fails), and opened. */
    method QuickAddStock(stock: SampleStock, response: Fetched<Quotes>)
      modifies this`newHolding, this`showAddForm
      ensures var lookup := LookupQuote(response, stock.symbol);
              var price := if lookup.Answered? && lookup.entry.Some? then lookup.entry.value.price else 0.0;
              newHolding == HoldingForm(stock.symbol, stock.sector, SP, price, 0.0)
      ensures showAddForm
    {
      var lookup := LookupQuote(response, stock.symbol);
      var currentPrice := 0.0;
      if lookup.Answered? && lookup.entry.Some? {
        currentPrice := lookup.entry.value.price;
      }
      newHolding := HoldingForm(stock.symbol, stock.sector, SP, currentPrice, 0.0);
      showAddForm := true;
    }
  }

  /** Removing the last holding leaves the stored list as it was, so the
      removed holding comes back on the next mount. */
  lemma RemovingLastKeepsStorage(h: StockHolding)
    ensures Without([h], h.name) == []
    ensures !ShouldPersist(true, Without([h], h.name))
  {
  }

  /** The request of a refresh is split by the endpoint back into the holdings'
      names, in order, provided no name contains a comma. */
  lemma RefreshRequestRoundTrip(hs: seq<StockHolding>)
    requires hs != []
    requires forall i :: 0 <= i < |hs| ==> ',' !in hs[i].name
    ensures Split(Join(NameList(hs), ','), ',') == NameList(hs)
  {
    SplitJoin(NameList(hs), ',');
  }
}
