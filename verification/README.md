# Stock dashboard — a verified model of its holdings and quote logic

The dashboard is a small Next.js application. A portfolio page keeps a list of
stock holdings in the browser's storage, refreshes their prices from a batch
quote endpoint, and shows a table with per-holding derived values, a portfolio
summary and per-sector summaries. A home page polls the same endpoint for a
fixed list of popular symbols through a hook. It also loads a market overview
and summarises the stored holdings. This project models that logic in Dafny
and proves what it does.

Modules, one per source file:

- `Stock` (`src/types/stock.ts`): the `StockHolding` record and
  `StockHoldingImpl`, whose derived values are getters.
- `StocksRoute` (`src/app/api/stocks/route.ts`): `GET /api/stocks?symbols=…`.
  The quote provider is a parameter `string -> Option<ProviderQuote>`, and
  `None` stands for a lookup that threw.
- `StockDataHook` (`src/hooks/useStockData.ts`): the polling hook, as a class.
  Each call of `FetchStockData` is one tick. The fetch outcome and the clock
  are parameters.
- `PortfolioTable` (`src/components/PortfolioTable.tsx`): the derived rows
  and the footer total.
- `PortfolioPage` (`src/app/portfolio/page.tsx`): the page state as a class,
  with the storage entry as a field. It also holds the summary `reduce`, the
  sector `reduce`, and the add, remove, refresh and quick-add handlers.
- `DashboardPage` (`src/app/page.tsx`): the market-data load and the
  stored-holdings summary loop.
- `MarketOverview` (`src/components/MarketOverview.tsx`): `getStatusColor` and
  `formatStatus`.
- Support modules:
  - `Wrappers`: `Option`, and JavaScript's `x || d`, where `0` and `""` fall
    through.
  - `Text`: ASCII upper-casing, split and join on one character, and decimal
    rendering.
  - `Types`: the records of `src/types/index.ts`, the response envelope and a
    fetch outcome.

Prices, quantities and money are `real`.

Some behaviour of the code that the model keeps, where a reader might expect
otherwise:

- The hook empties its quote dictionary when a fetch fails. It does not keep
  the last good snapshot (`useStockData.ts:53-59`).
- The hook reads a member `pe` that the endpoint never sends. The endpoint
  sends `peRatio`, so every quote the hook keeps has a P/E of 0
  (`StockDataHook.PeAlwaysZero`).
- The endpoint files each quote under the upper-cased symbol. Symbols that
  differ only in case therefore share one entry, and the last successful
  lookup wins.
- Removing the last holding does not clear storage, because the save effect
  skips empty lists. The removed holding reappears on the next mount.
- A refresh replaces a holding's `cmp`, `peRatio` and `latestEarnings`. It
  keeps the holding's stored `investment`, `presentValue` and `gainLoss`,
  which are never read back: the table recomputes them.
- `new StockHoldingImpl(data)` throws when `data` is a whole `StockHolding`
  record: `Object.assign` would copy `investment`, `presentValue` and
  `gainLoss` onto the class's getter-only accessors
  (`Stock.WholeRecordRejected`). Nothing in the application constructs the
  class.

## Model

| member | source | states |
|---|---|---|
| `Stock.StockHoldingImpl.PresentValue` | src/types/stock.ts:53-55 | an absent `cmp` counts as 0 (no purchase-price fallback); otherwise `cmp × quantity` |
| `Stock.StockHoldingImpl.GainLoss` | src/types/stock.ts:57-59 | zero when `cmp` equals the purchase price; `−investment` without a `cmp`; with a positive quantity, a gain exactly when `cmp` exceeds the purchase price |
| `Stock.StockHoldingImpl.AsRecord` | src/types/stock.ts:33-60 | the object read through the `StockHolding` interface has derived fields that agree with the getters, and constructing from it with the derived fields left out gives the same object |
| `Stock.Construct` | src/types/stock.ts:45-47 | the constructor accepts its argument exactly when it carries none of `investment`, `presentValue` and `gainLoss` (copying onto a getter-only accessor throws), and then keeps every supplied field |
| `Stock.WholeRecordRejected` | src/types/stock.ts:21-59 | a full `StockHolding` record, derived members included, makes the constructor throw |
| `Stock.OmittedRoundTrip` | src/types/stock.ts:45-59 | a record with its derived fields left out is accepted, and reading the object back gives the record exactly when its stored derived fields agree with the getters |
| `Text.SplitJoin` | src/app/api/stocks/route.ts:26 | splitting a comma-join returns the pieces, when none contains a comma and there is at least one |
| `Text.JoinSplit` | src/app/api/stocks/route.ts:26 | joining the pieces of a split returns the original string |
| `StocksRoute.StockApiResponse.Field` | src/app/api/stocks/route.ts:4-18 | a member read by name is a number only for a declared numeric member |
| `StocksRoute.NoPeField` | src/app/api/stocks/route.ts:40-53 | an entry has no `pe` member; its P/E goes out as `peRatio` |
| `StocksRoute.Earnings` | src/app/api/stocks/route.ts:36-38 | 0 for a zero or negative P/E; otherwise earnings × P/E = price, and earnings are non-negative for a non-negative price |
| `StocksRoute.Normalize` | src/app/api/stocks/route.ts:36-53 | the key and `symbol` are upper-cased, price, P/E, change, change percent, volume, market cap, dividend (from `trailingAnnualDividendRate`) and dividend yield (from `trailingAnnualDividendYield`) are the provider's number with missing or zero becoming 0, earnings are derived from price and P/E, the name falls back to the symbol, and the entry carries the time stamp |
| `StocksRoute.CollectKeys` | src/app/api/stocks/route.ts:29-58 | the result's keys are exactly the upper-cased symbols whose lookup succeeded |
| `StocksRoute.CollectLastWins` | src/app/api/stocks/route.ts:40 | a key's entry comes from the last successful lookup of a symbol with that upper-cased form |
| `StocksRoute.CollectKeysUpper` | src/app/api/stocks/route.ts:40-41 | every key of the answer is already in upper case |
| `StocksRoute.CollectSize` | src/app/api/stocks/route.ts:29-63 | there are never more entries than symbols, so "processed N out of M" has N ≤ M |
| `StocksRoute.CollapsedKeys` | src/app/api/stocks/route.ts:40 | `aapl,AAPL` gives one entry, from the second lookup |
| `StocksRoute.Get` | src/app/api/stocks/route.ts:20-64 | a missing or empty parameter gives 400 with the fixed error and no lookups; otherwise 200, one lookup per comma-separated piece in order, the collected dictionary, and the exact message |
| `StockDataHook.NormalizeEntry` | src/hooks/useStockData.ts:35-49 | the kept quote is filed under its key, the name falls back to the key, the price and time stamp are copied, and missing numbers become 0 |
| `StockDataHook.PeAlwaysZero` | src/hooks/useStockData.ts:45 | every kept quote has P/E 0 whatever the endpoint sent |
| `StockDataHook.HookOverEndpoint` | src/hooks/useStockData.ts:32-51 | over the endpoint's answer the hook's keys are exactly the upper-cased symbols the provider knew; each quote is filed under its own symbol with P/E 0 |
| `StockDataHook.StockDataHook.constructor` | src/hooks/useStockData.ts:12-20 | defaults: interval 30000, auto-refresh on; the initial state is no data, loading, no error, never updated |
| `StockDataHook.StockDataHook.AutoRefreshEnabled` | src/hooks/useStockData.ts:71-76 | the timer runs only when auto-refresh is on and the interval is positive |
| `StockDataHook.StockDataHook.GetStockData` | src/hooks/useStockData.ts:82-84 | the kept quote for the symbol when present (filed under that symbol), `null` exactly when absent |
| `StockDataHook.StockDataHook.FetchStockData` | src/hooks/useStockData.ts:22-63 | with no symbols, no request and only loading drops; otherwise one request for the joined symbols. Success replaces the dictionary, clears the error and stamps the time. An error envelope or a rejection empties the dictionary and sets its message or the default. Loading always ends false and every quote stays filed under its own symbol |
| `PortfolioTable.CurrentPrice` | src/components/PortfolioTable.tsx:44 | the live price if present and non-zero, else `cmp` if present and non-zero, else the purchase price |
| `PortfolioTable.Percent` | src/components/PortfolioTable.tsx:48-49 | a zero denominator gives 0 |
| `PortfolioTable.ProcessedHoldings` | src/components/PortfolioTable.tsx:42-60 | one row per holding |
| `PortfolioTable.RowFacts` | src/components/PortfolioTable.tsx:43-58 | a row copies the holding's inputs, takes the current price as `cmp`, and has derived values that agree with the `StockHoldingImpl` getters and guarded percentages |
| `PortfolioTable.ProcessedRow` | src/components/PortfolioTable.tsx:37-60 | row `i` is built from holding `i` with the total investment as the portfolio denominator |
| `PortfolioTable.FooterTotal` | src/components/PortfolioTable.tsx:390 | the footer's total value is the sum of present values at current prices |
| `PortfolioTable.PortfolioPercentsSumTo100` | src/components/PortfolioTable.tsx:37-49 | with a non-zero total investment the portfolio percentages add up to 100 |
| `PortfolioTable.PortfolioPercentInRange` | src/components/PortfolioTable.tsx:37-49 | with no negative investment and a non-zero total, each portfolio percentage lies in [0, 100] |
| `PortfolioTable.InvestmentBelowTotal` | src/components/PortfolioTable.tsx:37-39 | with no negative investment, each investment is at most the total |
| `PortfolioPage.LookupQuote` | src/app/portfolio/page.tsx:127-128 | the lookup throws exactly on a rejected fetch or a successful envelope without `data`; a successful envelope holding the key yields that entry, and an entry comes only from such an envelope |
| `PortfolioPage.FindSample` | src/app/portfolio/page.tsx:132 | a quick-add sector is found exactly when some sample has the symbol, and it is the sector of the first such sample |
| `PortfolioPage.NewHoldingAgrees` | src/app/portfolio/page.tsx:153-178 | a new holding's stored derived values agree with the getters, and it has a `cmp`; bought at the current price, it shows no gain or loss |
| `PortfolioPage.WithoutMembers` | src/app/portfolio/page.tsx:188-190 | removal keeps exactly the holdings with another name |
| `PortfolioPage.WithoutAppend` | src/app/portfolio/page.tsx:188-190 | removal works piece by piece, so order is kept |
| `PortfolioPage.WithoutIdempotent` | src/app/portfolio/page.tsx:188-190 | removing a name twice is removing it once |
| `PortfolioPage.WithoutAbsent` | src/app/portfolio/page.tsx:188-190 | removing a name nobody holds changes nothing |
| `PortfolioPage.Refreshed` | src/app/portfolio/page.tsx:82-93 | a covered holding takes the entry's price, P/E and earnings; any other holding is unchanged |
| `PortfolioPage.NameList` | src/app/portfolio/page.tsx:73 | the names in holding order |
| `PortfolioPage.FoundPrices` | src/app/portfolio/page.tsx:78-97 | the live prices are keyed by exactly the held names the answer covers, each with that entry's price |
| `PortfolioPage.FoundPricesStep` | src/app/portfolio/page.tsx:85 | the live prices grow one holding at a time, a later holding overwriting |
| `PortfolioPage.ApplyQuotes` | src/app/portfolio/page.tsx:81-97 | the refreshed list has the same length, each holding refreshed from the answer, and the live prices found |
| `PortfolioPage.RefreshedKeepsInputs` | src/app/portfolio/page.tsx:86-91 | a refresh keeps name, sector, exchange, purchase price, quantity and the stored derived values |
| `PortfolioPage.RefreshedPriceWins` | src/app/portfolio/page.tsx:85-97 | after a refresh, a covered holding's current price in the table is the answer's price when non-zero |
| `PortfolioPage.SummaryTotals` | src/app/portfolio/page.tsx:225-238 | the summary counts the holdings; its investment is the total investment, its present value the sum at current prices, and its gain/loss their difference |
| `PortfolioPage.SummaryMatchesTable` | src/app/portfolio/page.tsx:225-238 | the summary's present value equals the table footer's total, and its investment equals the table's percentage denominator |
| `PortfolioPage.SectorsExact` | src/app/portfolio/page.tsx:241-257 | the sector keys list every present sector exactly once |
| `PortfolioPage.SectorsDecompose` | src/app/portfolio/page.tsx:225-257 | the sector summaries added up over the sectors give the portfolio summary |
| `PortfolioPage.SectorTableStep` | src/app/portfolio/page.tsx:247-254 | tallying one more holding into its sector's entry (zero when absent) keeps each entry that sector's summary |
| `PortfolioPage.SectorSummaries` | src/app/portfolio/page.tsx:241-257 | the keys are exactly the sectors present, and each entry is the summary of that sector's holdings |
| `PortfolioPage.PortfolioPage.constructor` | src/app/portfolio/page.tsx:28-42 | the initial state: no holdings or live prices, not loading, no error, not mounted, the blank form closed |
| `PortfolioPage.PortfolioPage.Mount` | src/app/portfolio/page.tsx:45-55 | readable stored holdings are loaded, otherwise the list is kept; then the page is mounted |
| `PortfolioPage.PortfolioPage.SaveHoldings` | src/app/portfolio/page.tsx:58-62 | storage is written only when mounted with a non-empty list |
| `PortfolioPage.PortfolioPage.RefreshLiveData` | src/app/portfolio/page.tsx:65-107 | nothing before mounting or with no holdings. Otherwise the joined names are requested. Success refreshes the covered holdings and replaces the live prices. An error envelope or a rejection sets the matching message and keeps both. Loading always ends false |
| `PortfolioPage.PortfolioPage.HandleStockSelection` | src/app/portfolio/page.tsx:119-140 | the form takes the symbol; an entry under exactly that symbol also sets the sample sector and the live price |
| `PortfolioPage.PortfolioPage.AddHolding` | src/app/portfolio/page.tsx:142-186 | an incomplete form changes nothing and requests nothing; a throwing lookup changes nothing. Otherwise exactly one holding is appended, built from the form and the entry found, and the form is reset and closed |
| `PortfolioPage.PortfolioPage.RemoveHolding` | src/app/portfolio/page.tsx:188-190 | the holdings become those with another name |
| `PortfolioPage.PortfolioPage.QuickAddStock` | src/app/portfolio/page.tsx:192-222 | the form gets the sample's symbol and sector, 'S&P', quantity 0 and the live price (0 when none or on failure), and opens |
| `PortfolioPage.RemovingLastKeepsStorage` | src/app/portfolio/page.tsx:58-62 | removing the only holding leaves an empty list, which the save effect does not write |
| `PortfolioPage.RefreshRequestRoundTrip` | src/app/portfolio/page.tsx:73-74 | splitting the comma-joined names on commas, as the endpoint does with its parameter, gives back the holdings' names, in order, when no name contains a comma; the query string's encoding in between is not modelled |
| `DashboardPage.ShownPanel` | src/app/page.tsx:93-99 | the overview shows only when not loading, with no error and with data; an error shows only when not loading |
| `DashboardPage.StoredPrice` | src/app/page.tsx:63 | a holding is valued at `cmp` when present and non-zero, else at its purchase price |
| `DashboardPage.StoredSummaryTotals` | src/app/page.tsx:52-80 | the count is the number of stored holdings; investment and present value are plain sums; gain/loss is their difference; nothing stored gives zeros |
| `DashboardPage.DashboardMatchesPortfolioPage` | src/app/page.tsx:58-67 | the dashboard summary equals the portfolio page's summary whenever no holding has a non-zero live price there |
| `DashboardPage.Dashboard.constructor` | src/app/page.tsx:15-29 | the hook watches the popular symbols every 30 s; market data is loading; the summary is zero |
| `DashboardPage.Dashboard.LoadMarketData` | src/app/page.tsx:31-50 | success sets the data and clears the error; anything else clears the data and sets a non-empty error; loading ends false; the slot shows the overview exactly on success and the error otherwise |
| `DashboardPage.Dashboard.LoadPortfolioSummary` | src/app/page.tsx:52-80 | the running totals equal the stored summary |
| `MarketOverview.StatusColor` | src/components/MarketOverview.tsx:11-24 | gray exactly for an unknown status |
| `MarketOverview.StatusColorsDistinct` | src/components/MarketOverview.tsx:11-24 | the four known statuses have four different colours |
| `MarketOverview.ReplaceFirstAbsent` | src/components/MarketOverview.tsx:27 | with no '-' the status is unchanged |
| `MarketOverview.ReplaceFirstAt` | src/components/MarketOverview.tsx:27 | only the first '-' becomes a space; later ones stay |
| `MarketOverview.CapitalizeWordsAt` | src/components/MarketOverview.tsx:27 | a character is upper-cased exactly when it is a word character starting a word |
| `MarketOverview.FormatStatus` | src/components/MarketOverview.tsx:26-28 | the label has the status's length |
| `MarketOverview.FormatStatusAt` | src/components/MarketOverview.tsx:27 | each label character is the dash-replaced status's character, upper-cased exactly where a word starts |
| `MarketOverview.TwoWordLabel` | src/components/MarketOverview.tsx:27 | one lower-case word, or two joined by '-', is shown with each word capitalised and the '-' as a space |
| `MarketOverview.KnownLabels` | src/components/MarketOverview.tsx:27 | 'open', 'closed', 'pre-market' and 'after-hours' show as "Open", "Closed", "Pre Market" and "After Hours" |

## Left out

- Rendering, React state scheduling and effect dependencies. Each handler is one atomic state change. The refresh effect re-runs whenever the holdings change, and that is not modelled.
- Timers (`setInterval`) and races between overlapping fetches. `FetchStockData` and `RefreshLiveData` each model one run.
- The network, `fetch` and `Response.json`. A fetch is an input: a decoded envelope, or a rejection with its message.
- The quote provider (`yahoo-finance2`). It is an input function, and `None` means the lookup threw. Being a function, it gives the same answer to repeated lookups of one symbol within a request, so a symbol listed twice cannot succeed once and fail once.
- The route's 500 path (`route.ts:65-70`). Every provider failure is caught per symbol, so nothing in the model reaches it.
- The endpoint takes one fresh `new Date()` per entry. The model gives all entries of one request the same time stamp `now`.
- JSON encoding in storage. The storage entry is `Option<seq<StockHolding>>`, and `None` stands for missing, empty or unparsable. A stored value that parses to something other than a list of holdings is not modelled.
- Floating point. Numbers are exact reals: no NaN, no infinity, no rounding. `x || d` treats 0 as missing, as JavaScript does.
- `totalGainLossPercent` of the portfolio summary (`page.tsx:235`). It sums unguarded divisions by each investment and is never displayed.
- The query string between a client and the endpoint. The joined symbols go into the URL unencoded and the endpoint reads them with `searchParams.get`, which turns `+` into a space, decodes `%XX`, ends the value at `&` and drops everything from `#`. The model hands the joined string to the endpoint as it is, so a name containing `&`, `#`, `+` or `%` reaches the endpoint differently in the source (`M&M.NS` arrives as `M`).
- Upper-casing covers ASCII only. Other characters are left as they are.
- Form input parsing, `alert`, logging, the search box, sorting and grouping in the table, and number and date formatting.
- The market-data endpoint (`src/app/api/market-data/route.ts`) is not part of this model. Its answer is an input to `LoadMarketData`.
- `StatusColor`: its contract states the gray/known split, and distinctness is a separate lemma. The colour of each status is stated only by the function body.
