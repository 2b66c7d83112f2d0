/** The records the dashboard exchanges (src/types/index.ts), the uniform
    response envelope of its two endpoints, and what a client's `fetch` of one
    of them can come back with. */
module Types {
  import opened Wrappers

  /** One normalised quote, as the dashboard's quote cards read it. */
  datatype StockData = StockData(
    symbol: string,
    name: string,
    price: real,
    change: real,
    changePercent: real,
    volume: real,
    marketCap: real,
    pe: real,
    dividend: real,
    dividendYield: real,
    lastUpdated: string)

  /** The level of one market index. */
  datatype IndexLevel = IndexLevel(value: real, change: real, changePercent: real)

  /** The three indices of the market overview. */
  datatype Indices = Indices(sp500: IndexLevel, nasdaq: IndexLevel, dow: IndexLevel)

  /** The market overview. The status is declared as one of 'open', 'closed',
      'pre-market' and 'after-hours', and read as any string. */
  datatype MarketData = MarketData(
    indices: Indices,
    marketStatus: string,
    lastUpdated: string)

  /** `{ success, data?, error?, message? }`, the envelope both endpoints answer with. */
  datatype ApiResponse<T> = ApiResponse(
    success: bool,
    data: Option<T>,
    error: Option<string>,
    message: Option<string>)

  /** What `await (await fetch(url)).json()` gives a client: the decoded
      envelope, or a rejection (network failure, undecodable body). A
      rejection carries the `Error`'s message, or `None` when what was thrown
      is not an `Error`. */
  datatype Fetched<T> = Received(body: ApiResponse<T>) | Rejected(message: Option<string>)
}
