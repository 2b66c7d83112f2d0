/** A portfolio holding (src/types/stock.ts): the `StockHolding` record the
    portfolio pages store, and `StockHoldingImpl`, whose investment, present
    value and gain/loss are computed on every read instead of being stored. */
module Stock {
  import opened Wrappers

  /** 'S&P' | 'DOW' | 'NASDAQ' */
  datatype Exchange = SP | DOW | NASDAQ

  /** The `StockHolding` record. `investment`, `presentValue` and `gainLoss`
      are stored values here: whoever builds the record fills them in. */
  datatype StockHolding = StockHolding(
    name: string,
    sector: string,
    exchange: Exchange,
    purchasePrice: real,
    quantity: real,
    peRatio: Option<real>,
    latestEarnings: Option<real>,
    cmp: Option<real>,
    investment: real,
    presentValue: real,
    gainLoss: real,
    portfolioPercent: Option<real>,
    gainLossPercent: Option<real>)

  /** `StockHoldingImpl`: the record without its three derived fields, whose
      values are the getters below. */
  datatype StockHoldingImpl = StockHoldingImpl(
    name: string,
    sector: string,
    exchange: Exchange,
    purchasePrice: real,
    quantity: real,
    peRatio: Option<real>,
    latestEarnings: Option<real>,
    cmp: Option<real>,
    portfolioPercent: Option<real>,
    gainLossPercent: Option<real>)
  {
    /** `get investment()` */
    function Investment(): real {
      purchasePrice * quantity
    }

    /** `get presentValue()`: `(cmp ?? 0) * quantity`. An absent price counts
        as 0; there is no fallback to the purchase price. */
    function PresentValue(): (v: real)
      ensures cmp.None? ==> v == 0.0
      ensures cmp.Some? ==> v == cmp.value * quantity
    {
      cmp.GetOr(0.0) * quantity
    }

    /** `get gainLoss()` */
    function GainLoss(): (g: real)
      ensures cmp == Some(purchasePrice) ==> g == 0.0
      ensures cmp.None? ==> g == -Investment()
      ensures quantity > 0.0 && cmp.Some? ==> (g > 0.0 <==> cmp.value > purchasePrice)
    {
      PresentValue() - Investment()
    }

    /** The object seen through the `StockHolding` interface: every getter read once. */
    function AsRecord(): (h: StockHolding)
      ensures DerivedAgree(h)
      ensures Construct(Omitted(h)) == Some(this)
    {
      StockHolding(name, sector, exchange, purchasePrice, quantity, peRatio, latestEarnings, cmp,
                   Investment(), PresentValue(), GainLoss(), portfolioPercent, gainLossPercent)
    }
  }

  /** The stored derived fields of a record are those `StockHoldingImpl` would compute. */
  ghost predicate DerivedAgree(h: StockHolding) {
    && h.investment == h.purchasePrice * h.quantity
    && h.presentValue == h.cmp.GetOr(0.0) * h.quantity
    && h.gainLoss == h.presentValue - h.investment
  }

  /** The object handed to `new StockHoldingImpl(data)`: the supplied
      fields, and whether it also carries its own `investment`,
      `presentValue` or `gainLoss` member (`None` when it does not). */
  datatype ConstructorArgument = ConstructorArgument(
    fields: StockHoldingImpl,
    investment: Option<real>,
    presentValue: Option<real>,
    gainLoss: Option<real>)

  /** `new StockHoldingImpl(data)`: `Object.assign(this, data)` copies every
      member of `data`. On the class `investment`, `presentValue` and
      `gainLoss` are getter-only accessors, and a class body is strict code, so
      copying any of those three members throws (`None`). */
  function Construct(data: ConstructorArgument): (r: Option<StockHoldingImpl>)
    ensures r.Some? <==> data.investment.None? && data.presentValue.None? && data.gainLoss.None?
    ensures r.Some? ==> r.value == data.fields
  {
    if data.investment.Some? || data.presentValue.Some? || data.gainLoss.Some? then None
    else Some(data.fields)
  }

  /** A record as `Omit<StockHolding, 'investment' | 'presentValue' | 'gainLoss'>`:
      the argument the constructor's signature asks for. */
  function Omitted(h: StockHolding): ConstructorArgument {
    ConstructorArgument(
      StockHoldingImpl(h.name, h.sector, h.exchange, h.purchasePrice, h.quantity, h.peRatio,
                       h.latestEarnings, h.cmp, h.portfolioPercent, h.gainLossPercent),
      None, None, None)
  }

  /** A whole record passed as it is, with its three derived members. */
  function WholeRecord(h: StockHolding): ConstructorArgument {
    Omitted(h).(investment := Some(h.investment), presentValue := Some(h.presentValue), gainLoss := Some(h.gainLoss))
  }

  /** A full `StockHolding` record, such as one read back from storage, cannot
      be given to the constructor as it is: the call throws. */
  lemma WholeRecordRejected(h: StockHolding)
    ensures Construct(WholeRecord(h)) == None
  {
  }

  /** With its derived fields left out, a record is accepted, and reading the
      object back through the interface gives the record again exactly when
      its stored derived fields agreed with the getters. */
  lemma OmittedRoundTrip(h: StockHolding)
    ensures Construct(Omitted(h)).Some?
    ensures Construct(Omitted(h)).value.AsRecord() == h <==> DerivedAgree(h)
  {
  }
}
