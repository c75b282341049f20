# Stock market dashboard: data source, list pages and filter panel

This project models the sequential logic of a browser stock-market dashboard
and proves properties of it in Dafny:

- **The mock data source** (`api_mock.dfy`, module `MockApi`). It holds a table
  of fifteen listed stocks, looks a stock up by exact symbol (the first match
  wins, a miss is the "Stock not found" error) and looks up a symbol's price
  history ("Stock price history not found"). It converts a positional
  ten-cell price row into a named record, row by row. It also generates a
  synthetic thirty-day OHLCV history per symbol. The generator is an imperative
  loop that carries the running price from day to day. Its random draws and
  date strings are inputs. Proved about every generated series:
  - it has exactly `days` rows, numbered 1, 2, …;
  - every row is well formed;
  - the trend cell is always -1, because the test compares the running price
    with the open that was just set from it;
  - each open equals the previous close;
  - volumes lie in [10000000, 29999999];
  - after `i` days the running price is within `i` percent of the base
    price;
  - for a non-negative base price, low <= open, close <= high holds after
    rounding too.
- **The mock-backed list page** (`stock_list_page.dfy`, module
  `StockListPage`). It loads every listed symbol's history into a map. The
  batch is all-or-nothing: one failed fetch leaves the map empty. From a
  series the page derives the latest close, the latest volume and the daily
  change (absolute and percent), each with its placeholder. It filters rows
  with a case-insensitive substring search on symbol or short name, and
  colours a row green when its change is non-negative.
- **The REST-backed list page** (`market_list_page.dfy`, module
  `MarketListPage`). It applies the same search to `symbol`/`name`. It shows a
  "+" and green for a non-negative `price_change`, and a "No stocks found"
  line exactly when the filtered list is empty. Its state moves from loading
  to a list or to an error text.
- **The filter panel** (`stock_filter.dfy`, module `StockFilter`). It holds a
  four-field criteria record. A change replaces one field and reports the new
  record. Each drop-down has a fixed menu. The panel is a class whose state
  the change method overwrites.

Shared helpers: `wrappers.dfy` (option and result types), `text.dfy` (ASCII
lower-casing and `includes`, proved equal to "some slice equals the needle"),
`seqs.dfy` (`filter`, proved to return exactly the matching elements as an
order-preserving subsequence).

The model keeps these behaviours of the code:
- A zero previous close gives a non-finite percentage (`NotFinite`), not the
  zero placeholder.
- Malformed price rows are not rejected.
- One failed price fetch empties the whole prices map. Failures are not
  isolated per symbol.
- Position 9 of a generated row is a trend flag. `parsePriceData` names it
  `symbol`, and the model keeps that name.

## Model

| member | source | states |
|---|---|---|
| `Text.IncludesIff` | src/pages/StockListPage.jsx:95-96 | `includes` holds exactly when some slice of the text equals the term |
| `Seqs.Filter` | src/pages/StockListPage.jsx:92-97 | `filter` returns an order-preserving subsequence holding exactly the elements that satisfy the predicate, each as often as in the input |
| `MockApi.FetchStockList` | src/services/api_mock.js:240-242 | the list is the stored table of fifteen stocks |
| `MockApi.ListedSymbolsDistinct` | src/services/api_mock.js:2-183 | no two rows of the stock table share a symbol |
| `MockApi.FindStock` | src/services/api_mock.js:248-251 | fails with StockNotFound iff no row has the symbol; otherwise returns a row with that exact symbol and no earlier row has it |
| `MockApi.FoundByUniqueSymbol` | src/services/api_mock.js:248 | a row whose symbol no earlier row carries is exactly what the lookup returns |
| `MockApi.FetchStockDetail` | src/services/api_mock.js:244-254 | a found stock is a row of the table with the requested symbol |
| `MockApi.ThrownMessages` | src/services/api_mock.js:248-276 | a failed stock lookup throws "Stock not found" and a failed price lookup "Stock price history not found" |
| `MockApi.ListedStocksAreFound` | src/services/api_mock.js:240-253 | every stock the list returns is found again, unchanged, by its own symbol |
| `MockApi.ParsePriceData` | src/services/api_mock.js:256-269 | record field i (id, datetime, open, high, low, close, volume, value1, value2, symbol) is cell i of the row (undefined past the end); a ten-cell row is recovered exactly |
| `MockApi.ParseFieldsRoundTrip` | src/services/api_mock.js:256-269 | parsing a record's positional form gives the record back |
| `MockApi.FetchStockPrices` | src/services/api_mock.js:270-279 | succeeds iff the symbol has an entry (an empty series included) and then returns it unchanged; otherwise PriceHistoryNotFound |
| `MockApi.FetchStockPricesAsObjects` | src/services/api_mock.js:280-283 | same success and error as the raw lookup; same length, element i is the parsed raw row i |
| `MockApi.Round2Monotone` | src/services/api_mock.js:203-206 | rounding to cents never reverses the order of two prices |
| `MockApi.Round2Cents` | src/services/api_mock.js:203-206 | `Number(x.toFixed(2))` is a whole number of cents within half a cent of x |
| `MockApi.PriceWithinBand` | src/services/api_mock.js:188-213 | with draws in [0,1), the running price after i days is within i percent of the base price either way |
| `MockApi.DayVolume` | src/services/api_mock.js:198 | a volume draw in [0,1) gives a volume in [10000000, 29999999] |
| `MockApi.DayBar` | src/services/api_mock.js:193-197 | a day opens at the running price |
| `MockApi.DayRow` | src/services/api_mock.js:192-211 | the pushed row has ten cells |
| `MockApi.GeneratedSeries` | src/services/api_mock.js:186-217 | the generated series has one row per requested day |
| `MockApi.BuildDay` | src/services/api_mock.js:192-211 | the loop body, computing open, close, high, low and volume in turn, builds exactly DayRow and hands on the unrounded close |
| `MockApi.GeneratePriceHistory` | src/services/api_mock.js:186-217 | the loop builds exactly GeneratedSeries: `days` well-formed rows numbered 1.., trend cell -1, each open equal to the previous close, volumes in [10000000, 29999999] for draws in [0,1), and low <= open, close <= high for a non-negative base price |
| `MockApi.GeneratedSeriesStep` | src/services/api_mock.js:191-214 | one more loop iteration appends that day's row |
| `MockApi.DayRowShape` | src/services/api_mock.js:194-210 | a pushed row is well formed, carries its 1-based day number, and its trend cell is -1 |
| `MockApi.GeneratedRowsShape` | src/services/api_mock.js:200-211 | every generated row is well formed, numbered i + 1, with trend -1 |
| `MockApi.DayOpenIsPreviousClose` | src/services/api_mock.js:194-213 | the row built for day i opens at the rounded price day i - 1 closed at |
| `MockApi.GeneratedOpenIsPreviousClose` | src/services/api_mock.js:194-213 | each generated open equals the previous day's close |
| `MockApi.BarBracketed` | src/services/api_mock.js:203-206 | a bar with low <= open, close <= high keeps that order after each price is rounded to cents |
| `MockApi.DayBarInside` | src/services/api_mock.js:193-197 | with non-negative volatility and spreads, low <= open, close <= high |
| `MockApi.DayBarBracketed` | src/services/api_mock.js:196-206 | the rounded cells of a pushed row keep low <= open, close <= high |
| `MockApi.GeneratedRowsBounded` | src/services/api_mock.js:193-206 | for draws in [0,1): every volume in range, and for a non-negative base every bar brackets its open and close |
| `MockApi.MockPriceHistory` | src/services/api_mock.js:219-235 | the price table has exactly the symbols with a base price, each mapped to thirty days generated from it |
| `MockApi.ListedStocksHavePrices` | src/services/api_mock.js:219-235 | every listed stock's price fetch succeeds with thirty rows |
| `StockListPage.GetDailyChange` | src/pages/StockListPage.jsx:35-49 | fewer than two rows or no series gives the zero placeholder; otherwise previous close + change = latest close, and the percentage is finite iff the previous close is non-zero, with percent * previous = change * 100 |
| `StockListPage.GetLatestPrice` | src/pages/StockListPage.jsx:51-54 | "no data" iff the series is missing or empty; otherwise the close of the last row |
| `StockListPage.GetLatestVolume` | src/pages/StockListPage.jsx:56-59 | "no data" iff the series is missing or empty; otherwise cell 6 of the last row |
| `StockListPage.AppendedRowIsLatest` | src/pages/StockListPage.jsx:51-59 | a newly appended row gives the latest price and volume |
| `StockListPage.DailyChangeIsLatestMinusPrevious` | src/pages/StockListPage.jsx:35-54 | the daily change is the latest price minus the latest price without the last row |
| `StockListPage.PercentFollowsChange` | src/pages/StockListPage.jsx:41-42 | with a positive previous close the percentage is finite and has the sign of the change |
| `StockListPage.MatchesSearchIff` | src/pages/StockListPage.jsx:92-97 | a stock matches iff the lower-cased term occurs at some position of its lower-cased symbol or short name |
| `StockListPage.SearchStocks` | src/pages/StockListPage.jsx:92-97 | the shown stocks are an order-preserving subsequence of the table holding exactly the matching stocks, unchanged |
| `StockListPage.EmptySearchKeepsAll` | src/pages/StockListPage.jsx:92-97 | an empty search term shows every stock |
| `StockListPage.SearchIgnoresCase` | src/pages/StockListPage.jsx:95-96 | terms equal up to letter case show the same stocks |
| `StockListPage.FetchAllPrices` | src/pages/StockListPage.jsx:19-24 | succeeds iff every listed symbol has a history, with entry i = [symbol i, its history]; otherwise PriceHistoryNotFound |
| `StockListPage.FromEntries` | src/pages/StockListPage.jsx:25 | the keys are the entries' first components, every value comes from an entry with its key, and the last entry for a key wins |
| `StockListPage.EntriesMapSymbols` | src/pages/StockListPage.jsx:19-26 | the map built from one entry per stock has exactly the listed symbols, each mapped to its own history |
| `StockListPage.LoadedPrices` | src/pages/StockListPage.jsx:12-33 | when every fetch succeeds each listed symbol maps to its history; when one fails the map stays empty |
| `StockListPage.PricesFor` | src/pages/StockListPage.jsx:99 | `stockPrices[stock[0]]` is defined iff the map has the symbol, and is then its series |
| `StockListPage.StockRowView` | src/pages/StockListPage.jsx:98-124 | a row shows its stock's symbol, name, market cap and currency; it is green iff there is no change signal or the latest close is at least the previous close; a stock without prices shows every placeholder |
| `StockListPage.ListView` | src/pages/StockListPage.jsx:92-126 | one row per searched stock, in search order |
| `StockListPage.FailedBatchShowsPlaceholders` | src/pages/StockListPage.jsx:19-29 | if one symbol has no history, every shown row carries the placeholders and is green |
| `StockListPage.GeneratedHistoryReadable` | src/services/api_mock.js:200-211 | every generated series has the numeric closes the derivations read |
| `MarketListPage.FilteredStocks` | stock-market/src/pages/StockListPage.jsx:27-30 | an order-preserving subsequence holding exactly the stocks whose lower-cased symbol or name contains the lower-cased term, unchanged |
| `MarketListPage.EmptyTermKeepsAll` | stock-market/src/pages/StockListPage.jsx:27-30 | an empty term keeps every stock |
| `MarketListPage.FilterIgnoresCase` | stock-market/src/pages/StockListPage.jsx:27-30 | terms equal up to letter case keep the same stocks |
| `MarketListPage.Badge` | stock-market/src/pages/StockListPage.jsx:86-89 | the "+" prefix and green are shown iff the change is >= 0, no prefix and red iff it is < 0 |
| `MarketListPage.InitialShowsSpinner` | stock-market/src/pages/StockListPage.jsx:7-36 | the first render has no stocks, no error, an empty term, and shows the spinner |
| `MarketListPage.HasError` | stock-market/src/pages/StockListPage.jsx:40 | the initial `null` and an empty string are falsy; the load-failure text is truthy |
| `MarketListPage.Settle` | stock-market/src/pages/StockListPage.jsx:13-22 | loading ends on success and on failure; success stores the data, failure stores "Failed to fetch stocks" |
| `MarketListPage.SetSearchTerm` | stock-market/src/pages/StockListPage.jsx:63 | typing changes only the search term |
| `MarketListPage.Render` | stock-market/src/pages/StockListPage.jsx:32-98 | spinner iff loading; else the error text iff an error is set; else the filtered list, with "No stocks found" iff it is empty |
| `MarketListPage.SettledViews` | stock-market/src/pages/StockListPage.jsx:8-46 | after the load settles there is no spinner: a failure shows the error text, a success the filtered list |
| `MarketListPage.LoadedWithEmptyTermListsAll` | stock-market/src/pages/StockListPage.jsx:94-98 | after a successful load with an empty term all stocks are listed, and the empty-result line shows only for an empty list |
| `StockFilter.Set` | src/components/StockFilter.jsx:11-12 | the chosen key takes the value and the other three criteria keep theirs |
| `StockFilter.SetIdempotent` | src/components/StockFilter.jsx:11-13 | applying the same change twice equals applying it once |
| `StockFilter.SetCurrentValue` | src/components/StockFilter.jsx:11-12 | re-choosing the current value leaves the record unchanged |
| `StockFilter.SetCommutes` | src/components/StockFilter.jsx:11-12 | changes to different keys commute |
| `StockFilter.Options` | src/components/StockFilter.jsx:31-36 | every menu starts with "" and the sector menu is "" followed by the given sectors in order |
| `StockFilter.InitialAllowed` | src/components/StockFilter.jsx:4-9 | the initial all-empty record offers only menu values |
| `StockFilter.SetKeepsAllowed` | src/components/StockFilter.jsx:50-87 | choosing a value from a key's menu keeps every criterion within its menu |
| `StockFilter.FilterPanel.constructor` | src/components/StockFilter.jsx:4-9 | the state starts as four empty criteria, nothing reported |
| `StockFilter.FilterPanel.HandleFilterChange` | src/components/StockFilter.jsx:11-15 | the state becomes the old record with one key replaced, exactly that record is reported, and menu values keep the state valid |
| `StockFilter.RepeatedChange` | src/components/StockFilter.jsx:11-15 | two identical changes leave the state of one change and report it twice |

## Left out

- Rendering, CSS classes, navigation and routing (`stock-market/src/App.jsx`) are user interface, not behaviour.
- `src/pages/StockDetailPage.jsx` is not part of this model. Its loading/error flags follow the same pattern as `MarketListPage.Settle`.
- `src/services/api.js` (an HTTP client) is not part of this model. The REST page's load result is a `LoadOutcome` parameter.
- `setTimeout` delays, `async`/`await` and `Promise.all` scheduling are concurrency plumbing. The batch is modelled by its all-or-nothing result (`FetchAllPrices`).
- `Math.random()` and `new Date(...)` are inputs (`DayDraws`): one date string and four draws per day, in the loop body's order. The module-level `console.log` calls are I/O.
- `toFixed(2)` strings (`changeStr`, `percentStr`, "$" prefixes) are not produced. Prices are `real`, and `Number(x.toFixed(2))` is rounding half up to cents (`Round2`). IEEE-754 doubles and their tie-breaking are not modelled.
- `formatBigNumber` (in src/utils/formatters, which is not part of this model) is a foreign call. The latest volume is returned as the raw cell, and the market cap as the stored string.
- `toLowerCase` lower-cases only ASCII A-Z here. Other Unicode case mappings are not modelled.
- StockListPage.GetDailyChange: requires the last two close cells to be numbers. JavaScript coercion of strings or `undefined` to NaN is not modelled. Every generated row satisfies this requirement (`GeneratedHistoryReadable`).
- StockListPage.GetLatestPrice: requires the last close cell to be a number, because `toFixed` would throw on anything else.
- MockApi.FetchStockPrices: keys inherited from `Object.prototype` (for example `"constructor"`) are not looked up as the engine would.
- MarketListPage.FilteredStocks: a payload element without `symbol` or `name` would throw in the source. Such elements are not modelled.
- Evaluation of the price-range, market-cap and change-direction criteria, and pagination, do not exist in this code. No shown file applies the collected criteria, so no such predicate is modelled.
