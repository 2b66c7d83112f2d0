/** The batch quote endpoint (src/app/api/stocks/route.ts): `GET
    /api/stocks?symbols=A,B,...` looks every listed symbol up at the quote
    provider, one after the other, and answers with a dictionary from the
    upper-cased symbol to a normalised quote. A symbol whose lookup fails is
    left out; the batch still succeeds. */
module StocksRoute {
  import opened Wrappers
  import opened Text
  import opened Types

  /** The provider's quote object, restricted to the fields the endpoint reads;
      each may be missing. */
  datatype ProviderQuote = ProviderQuote(
    trailingPE: Option<real>,
    regularMarketPrice: Option<real>,
    shortName: Option<string>,
    regularMarketChange: Option<real>,
    regularMarketChangePercent: Option<real>,
    regularMarketVolume: Option<real>,
    marketCap: Option<real>,
    trailingAnnualDividendRate: Option<real>,
    trailingAnnualDividendYield: Option<real>)

  /** The quote provider: `None` stands for a lookup that threw. */
  type QuoteProvider = string -> Option<ProviderQuote>

  /** `StockApiResponse`: one entry of the endpoint's `data` dictionary. */
  datatype StockApiResponse = StockApiResponse(
    symbol: string,
    price: real,
    peRatio: real,
    earnings: real,
    lastUpdated: string,
    name: Option<string>,
    change: Option<real>,
    changePercent: Option<real>,
    volume: Option<real>,
    marketCap: Option<real>,
    dividend: Option<real>,
    dividendYield: Option<real>)
  {
    /** The entry's numeric member called `key`, as a client reading the JSON
        object by property name sees it; `None` when the object has no such member. */
    function Field(key: string): (v: Option<real>)
      ensures v.Some? ==> key in NumericKeys
    {
      match key
      case "price" => Some(price)
      case "peRatio" => Some(peRatio)
      case "earnings" => Some(earnings)
      case "change" => change
      case "changePercent" => changePercent
      case "volume" => volume
      case "marketCap" => marketCap
      case "dividend" => dividend
      case "dividendYield" => dividendYield
      case _ => None
    }
  }

  /** The numeric members an entry can have. */
  const NumericKeys: set<string> :=
    {"price", "peRatio", "earnings", "change", "changePercent", "volume", "marketCap", "dividend", "dividendYield"}

  /** An entry never has a member called `pe`: the price/earnings ratio goes out as `peRatio`. */
  lemma NoPeField(r: StockApiResponse)
    ensures r.Field("pe") == None
    ensures r.Field("peRatio") == Some(r.peRatio)
  {
  }

  /** Earnings per share derived from price and P/E, guarded against a zero or negative ratio. */
  function Earnings(price: real, peRatio: real): (e: real)
    ensures peRatio <= 0.0 ==> e == 0.0
    ensures peRatio > 0.0 ==> e * peRatio == price
    ensures peRatio > 0.0 && price >= 0.0 ==> e >= 0.0
  {
    if peRatio > 0.0 then price / peRatio else 0.0
  }

  /** The entry built for a symbol whose lookup returned `q`, at time `now`. */
  function Normalize(symbol: string, q: ProviderQuote, now: string): (r: StockApiResponse)
    ensures r.symbol == Upper(symbol)
    ensures r.price == NumberOr(q.regularMarketPrice, 0.0)
    ensures r.peRatio == NumberOr(q.trailingPE, 0.0)
    ensures r.earnings == Earnings(r.price, r.peRatio)
    ensures r.name == Some(StringOr(q.shortName, Upper(symbol)))
    ensures r.change == Some(NumberOr(q.regularMarketChange, 0.0))
    ensures r.changePercent == Some(NumberOr(q.regularMarketChangePercent, 0.0))
    ensures r.volume == Some(NumberOr(q.regularMarketVolume, 0.0))
    ensures r.marketCap == Some(NumberOr(q.marketCap, 0.0))
    ensures r.dividend == Some(NumberOr(q.trailingAnnualDividendRate, 0.0))
    ensures r.dividendYield == Some(NumberOr(q.trailingAnnualDividendYield, 0.0))
    ensures forall k :: k in NumericKeys ==> r.Field(k).Some?
    ensures r.lastUpdated == now
  {
    var key := Upper(symbol);
    var peRatio := NumberOr(q.trailingPE, 0.0);
    var price := NumberOr(q.regularMarketPrice, 0.0);
    StockApiResponse(
      symbol := key,
      price := price,
      peRatio := peRatio,
      earnings := Earnings(price, peRatio),
      lastUpdated := now,
      name := Some(StringOr(q.shortName, key)),
      change := Some(NumberOr(q.regularMarketChange, 0.0)),
      changePercent := Some(NumberOr(q.regularMarketChangePercent, 0.0)),
      volume := Some(NumberOr(q.regularMarketVolume, 0.0)),
      marketCap := Some(NumberOr(q.marketCap, 0.0)),
      dividend := Some(NumberOr(q.trailingAnnualDividendRate, 0.0)),
      dividendYield := Some(NumberOr(q.trailingAnnualDividendYield, 0.0)))
  }

  /** The dictionary the per-symbol loop leaves after the symbols `syms`, in
      order: a successful lookup sets the upper-cased key, overwriting an
      earlier entry for the same key; a failed one changes nothing. */
  function Collect(syms: seq<string>, provider: QuoteProvider, now: string): map<string, StockApiResponse> {
    if syms == [] then map[]
    else
      var before := Collect(syms[..|syms| - 1], provider, now);
      var s := syms[|syms| - 1];
      match provider(s)
      case None => before
      case Some(q) => before[Upper(s) := Normalize(s, q, now)]
  }

  /** The keys are exactly the upper-cased symbols whose lookup succeeded. */
  lemma {:induction false} CollectKeys(syms: seq<string>, provider: QuoteProvider, now: string, k: string)
    ensures k in Collect(syms, provider, now) <==>
            exists i :: 0 <= i < |syms| && provider(syms[i]).Some? && Upper(syms[i]) == k
  {
    if syms != [] {
      var init := syms[..|syms| - 1];
      CollectKeys(init, provider, now, k);
      if k in Collect(syms, provider, now) && k !in Collect(init, provider, now) {
        assert provider(syms[|syms| - 1]).Some? && Upper(syms[|syms| - 1]) == k;
      }
      if exists i :: 0 <= i < |syms| && provider(syms[i]).Some? && Upper(syms[i]) == k {
        var i :| 0 <= i < |syms| && provider(syms[i]).Some? && Upper(syms[i]) == k;
        if i < |init| {
          assert init[i] == syms[i];
        }
      }
    }
  }

  /** The entry under a key comes from the LAST successful lookup of a symbol with that upper-cased form. */
  lemma {:induction false} CollectLastWins(syms: seq<string>, provider: QuoteProvider, now: string, j: nat)
    requires j < |syms| && provider(syms[j]).Some?
    requires forall i :: j < i < |syms| && Upper(syms[i]) == Upper(syms[j]) ==> provider(syms[i]).None?
    ensures Upper(syms[j]) in Collect(syms, provider, now)
    ensures Collect(syms, provider, now)[Upper(syms[j])] == Normalize(syms[j], provider(syms[j]).value, now)
  {
    var init := syms[..|syms| - 1];
    if j < |syms| - 1 {
      assert init[j] == syms[j];
      forall i | j < i < |init| && Upper(init[i]) == Upper(init[j])
        ensures provider(init[i]).None?
      {
        assert init[i] == syms[i];
      }
      CollectLastWins(init, provider, now, j);
    }
  }

  /** Every key is already in upper case: upper-casing a key gives the key back. */
  lemma CollectKeysUpper(syms: seq<string>, provider: QuoteProvider, now: string, k: string)
    requires k in Collect(syms, provider, now)
    ensures Upper(k) == k
  {
    CollectKeys(syms, provider, now, k);
    var i :| 0 <= i < |syms| && provider(syms[i]).Some? && Upper(syms[i]) == k;
    UpperIdempotent(syms[i]);
  }

  /** There are never more entries than symbols. */
  lemma {:induction false} CollectSize(syms: seq<string>, provider: QuoteProvider, now: string)
    ensures |Collect(syms, provider, now)| <= |syms|
  {
    if syms != [] {
      CollectSize(syms[..|syms| - 1], provider, now);
    }
  }

  /** Two symbols that differ only in case share one entry: at most one entry per upper-cased form. */
  lemma CollapsedKeys(provider: QuoteProvider, now: string)
    requires provider("aapl").Some? && provider("AAPL").Some?
    ensures Collect(["aapl", "AAPL"], provider, now).Keys == {"AAPL"}
    ensures Collect(["aapl", "AAPL"], provider, now)["AAPL"] == Normalize("AAPL", provider("AAPL").value, now)
  {
    var syms := ["aapl", "AAPL"];
    assert syms[..1] == ["aapl"];
    assert ["aapl"][..0] == [];
    assert Upper("aapl") == "AAPL" && Upper("AAPL") == "AAPL";
    var first := Collect(["aapl"], provider, now);
    assert Collect([], provider, now) == map[];
    assert ["aapl"][0] == "aapl";
    assert first == map["AAPL" := Normalize("aapl", provider("aapl").value, now)];
    assert Collect(syms, provider, now) == first["AAPL" := Normalize("AAPL", provider("AAPL").value, now)];
  }

  const MissingSymbols := "Symbols parameter is required"

  /** `GET`. `symbolsParam` is the `symbols` query parameter (`None` when
      absent); `provider` is the quote lookup; `now` the time stamp put on
      every entry. Besides the HTTP status and the body, the method returns
      the symbols it asked the provider for, in the order it asked. */
  method Get(symbolsParam: Option<string>, provider: QuoteProvider, now: string)
    returns (status: nat, body: ApiResponse<map<string, StockApiResponse>>, lookups: seq<string>)
    ensures symbolsParam.None? || symbolsParam.value == "" ==>
              status == 400 && body == ApiResponse(false, None, Some(MissingSymbols), None) && lookups == []
    ensures symbolsParam.Some? && symbolsParam.value != "" ==>
              var syms := Split(symbolsParam.value, ',');
              && status == 200
              && lookups == syms
              && body.success
              && body.error.None?
              && body.data == Some(Collect(syms, provider, now))
              && body.message == Some("Successfully processed " + NatToString(|Collect(syms, provider, now)|)
                                      + " out of " + NatToString(|syms|) + " symbols.")
  {
    if symbolsParam.None? || symbolsParam.value == "" {
      return 400, ApiResponse(false, None, Some(MissingSymbols), None), [];
    }
    var symbolList := Split(symbolsParam.value, ',');
    var results: map<string, StockApiResponse> := map[];
    lookups := [];
    for i := 0 to |symbolList|
      invariant lookups == symbolList[..i]
      invariant results == Collect(symbolList[..i], provider, now)
    {
      var symbol := symbolList[i];
      lookups := lookups + [symbol];
      var quote := provider(symbol);
      if quote.Some? {
        results := results[Upper(symbol) := Normalize(symbol, quote.value, now)];
      }
      assert symbolList[..i + 1][..i] == symbolList[..i];
    }
    assert symbolList[..|symbolList|] == symbolList;
    var message := "Successfully processed " + NatToString(|results|) + " out of "
                   + NatToString(|symbolList|) + " symbols.";
    return 200, ApiResponse(true, Some(results), None, Some(message)), lookups;
  }
}
