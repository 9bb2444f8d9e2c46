# Stock-Trading portfolio core in Dafny

This project models the two classes at the centre of the Stock-Trading
service:

- `PortfolioManager` (app/models/portfolio.py) buys and sells shares for a user.
  - Each trade writes one row of the `portfolio` table and one row of the
    `transactions` log inside one database transaction.
  - It values a user's holdings at the latest close.
  - It lists the user's trades, newest first.
- `StockAPI` (app/models/stock.py) answers price, company-overview and
  price-history lookups from Alpha Vantage.
  - It keeps a fifteen-minute in-memory cache in front of the provider.
  - It picks the latest day of a daily series as the current quote.

The model follows the source's own form. The parts that change state step
by step are classes:

- `Stock.StockApi` holds the cache map, which its methods reassign.
- `Ledger.LedgerStore` holds the two SQLite tables as a map and a sequence.
- `Portfolio.PortfolioManager` drives both, and its `GetPortfolio` loops over
  the holdings as the source does.

Each method is proved against a pure function of the old state. The cache
lookups are proved against `QuoteCache.PriceQuery`, `InfoQuery` and
`HistoryQuery`. The valuation loop is proved against `Portfolio.ValueRows`.
The trades are proved against `Ledger.ApplyRow` and `Ledger.Replay`. The
properties the source promises are then proved about those functions.

Modules, one per file:

| file | module | what it holds |
|---|---|---|
| results.dfy | Results | `Option` and `Result` |
| string_order.dfy | StringOrder | Python's `str` ordering; the index `sorted(keys)[-1]` picks |
| market.dfy | Market | the provider as an oracle; turning its answers into a quote, an overview or a history; the numeric-field conversion loop |
| quote_cache.dfy | QuoteCache | cache keys, the freshness test, and the cache-first flow of the three lookups as pure functions |
| stock.dfy | Stock | class `StockApi` and `validate_symbol` |
| positions.dfy | Positions | the weighted-average upsert, the sell decrement, and the valuation of a holding |
| ledger.dfy | Ledger | the two tables, the replay of the log, class `LedgerStore` and the history query |
| portfolio.dfy | Portfolio | class `PortfolioManager` and the order-independence of `get_portfolio` |

Time is an explicit `now` argument in microseconds. One `now` stands for every
clock read within one call: in the source, `get_stock_price` reads the clock
for the freshness test (app/models/stock.py:38) and again for the stamp it
caches (app/models/stock.py:54), and each row of the valuation loop reads it
again (app/models/portfolio.py:44-45). The Alpha Vantage
answers and Python's `float(str)` are oracle parameters. Prices are exact
reals.

## Model

| member | source | states |
|---|---|---|
| QuoteCache.Lookup | app/models/stock.py:36-44 | an entry is returned exactly when it is present and younger than fifteen minutes, and then it is the stored data |
| QuoteCache.LookupEvictsOnlyExpired | app/models/stock.py:36-44 | after a miss the key is gone from the cache; a hit leaves the cache unchanged; no other key ever changes |
| QuoteCache.StoredThenLookedUp | app/models/stock.py:54 | data just stored is what a lookup within the time to live returns, and that lookup evicts nothing |
| QuoteCache.StoredOverwrites | app/models/stock.py:54 | storing twice under one key keeps only the second entry |
| QuoteCache.KeyNamespacesDisjoint | app/models/stock.py:71-201 | a price key never equals an info key or a history key, and an info key never equals a history key |
| QuoteCache.PriceAndInfoKeysInjective | app/models/stock.py:71 | two symbols share a price key (or an info key) only if they are the same symbol |
| QuoteCache.HistoricalKeyInjective | app/models/stock.py:201-208 | for the sizes "compact" and "full", a history key determines both the symbol and the size |
| QuoteCache.HistoricalKeyCollision | app/models/stock.py:201 | with an invalid size, ("A_B", "compact") and ("A", "B_compact") share a history key |
| QuoteCache.PriceQuery | app/models/stock.py:71-114 | a fresh entry is returned with the cache untouched; on a miss the provider's answer decides; a quote is cached fresh under its key; a failure leaves no entry under the key; the cache stays well kinded |
| QuoteCache.PriceQueryFrame | app/models/stock.py:71-107 | a price lookup leaves every other cache key as it was |
| QuoteCache.SecondPriceQueryHitsCache | app/models/stock.py:71-74 | a second lookup within the time to live returns the first quote and leaves the cache unchanged, whatever the provider now answers |
| QuoteCache.PriceQueryIsLocal | app/models/stock.py:71-74 | a price lookup's answer, and the entry it leaves, depend only on the cache entry under its own key |
| QuoteCache.InfoQuery | app/models/stock.py:130-182 | the same cache-first flow under "info_" plus the symbol, with the coerced overview as the answer |
| QuoteCache.InfoQueryFrame | app/models/stock.py:130-175 | an overview lookup leaves every other cache key as it was |
| QuoteCache.HistoryQuery | app/models/stock.py:201-245 | the same cache-first flow under the history key; a hit is returned before the size is looked at |
| QuoteCache.HistoryQueryChecksSizeAfterCache | app/models/stock.py:201-208 | on a miss, a size other than "compact" or "full" fails with "Unable to get historical data for" plus the symbol, never asks the provider and caches nothing |
| Market.QuoteFrom | app/models/stock.py:87-114 | a request failure passes through unchanged; an unusable body gives "Unable to get price for" plus the symbol; an empty series gives the IndexError; otherwise the answer is a quote of the symbol or that message |
| Market.QuoteFromReadsLatestDay | app/models/stock.py:92-104 | when a day is the latest of a non-empty series, the quote succeeds exactly when that day is readable, and then has that day's date and fields |
| Market.QuoteFromIsLatestDay | app/models/stock.py:92-104 | a returned quote is a day of the series with exactly the quote's fields, and no date of the series is greater |
| StringOrder.GreatestIndex | app/models/stock.py:93 | the chosen key is at least every key of the series under Python's string order |
| StringOrder.GreatestIsUnique | app/models/stock.py:93 | among distinct keys only one index is greatest, so the choice is the one `sorted(...)[-1]` makes |
| Market.ParseDays | app/models/stock.py:224-235 | the parse succeeds exactly when every day is readable, and then keeps every day in order with its date and fields |
| Market.HistoryFrom | app/models/stock.py:219-245 | a request failure passes through unchanged; an unusable body gives "Unable to get historical data for" plus the symbol; a history is always of the requested symbol |
| Market.HistoryFromKeepsEveryDay | app/models/stock.py:219-245 | a history succeeds exactly when every day is readable; it holds one entry per day of the series, in order; any other failure is "Unable to get historical data for" plus the symbol |
| Market.CoerceNumericFields | app/models/stock.py:152-172 | the loop keeps every key; a numeric field that is non-empty and convertible becomes its number; every other value stays text |
| Market.CoerceIdempotent | app/models/stock.py:167-172 | converting a field twice gives what converting it once gives |
| Market.InfoFrom | app/models/stock.py:144-182 | an overview succeeds exactly when the body is usable and has "Symbol"; a request failure passes through; every other failure is "Unable to get company info for" plus the symbol |
| Market.InfoFromKeepsEveryKey | app/models/stock.py:164-172 | a returned overview has exactly the keys of the provider's body |
| Stock.StockApi.constructor | app/models/stock.py:23-24 | a new client starts with an empty cache |
| Stock.StockApi.GetCachedData | app/models/stock.py:26-44 | returns what `Lookup` gives on the old cache and deletes only an expired entry under the key |
| Stock.StockApi.CacheData | app/models/stock.py:46-55 | the key now holds the data stamped now; nothing else changes |
| Stock.StockApi.GetStockPrice | app/models/stock.py:57-114 | the result and the new cache are those of `PriceQuery` on the old cache |
| Stock.StockApi.GetCompanyInfo | app/models/stock.py:116-182 | the result and the new cache are those of `InfoQuery`, with the conversion loop run in place |
| Stock.StockApi.GetHistoricalData | app/models/stock.py:184-245 | the result and the new cache are those of `HistoryQuery`; the size defaults to "compact" |
| Stock.Validation | app/models/stock.py:257-261 | true exactly when the price lookup succeeds; false exactly on a request failure or a ValueError; among the answers the model represents, the error escapes exactly for an empty series |
| Stock.StockApi.ValidateSymbol | app/models/stock.py:247-261 | the answer is `Validation` of the price lookup on the old cache, whose cache it leaves |
| Stock.ValidateSymbolRaisesOnEmptySeries | app/models/stock.py:257-261 | for an uncached symbol whose daily series is empty, `validate_symbol` raises instead of answering |
| Stock.StockApi.CheckSymbol | app/models/stock.py:247-261 | true exactly when the price lookup succeeds, false on every failure; the cache is the lookup's |
| Positions.BuyInto | app/models/portfolio.py:95-101 | the upserted row holds the old shares plus the new; its cost basis is the old one plus the price paid; a new row holds exactly (quantity, price) |
| Positions.BuyIntoAverage | app/models/portfolio.py:98-100 | the new average is the old cost basis plus the price paid, divided by the new quantity |
| Positions.BuyIntoEmptiedPosition | app/models/portfolio.py:98-100 | a row sold down to zero shares takes the new price as its average, whatever its old average |
| Positions.BuyAllAccumulates | app/models/portfolio.py:95-101 | after a run of buys the row holds every share bought, and its cost basis is everything paid |
| Positions.BuysYieldWeightedAverage | app/models/portfolio.py:95-101 | after a run of buys the average is the quantity-weighted average of the executed prices |
| Positions.SellFrom | app/models/portfolio.py:169-173 | a sell removes exactly the sold shares and keeps the average |
| Positions.Valuate | app/models/portfolio.py:46-54 | a holding's value is the quantity times the close; its gain is that value minus the cost basis |
| Ledger.HeldSymbols | app/models/portfolio.py:31-36 | a symbol is listed exactly when the user's row for it holds a positive quantity |
| Ledger.CommitKeepsConsistent | app/models/portfolio.py:88-111 | committing a covered trade with the next id keeps the table equal to the replay of the log |
| Ledger.ReplayNetsTheLog | app/models/portfolio.py:151-155 | in a covered log each row holds the shares bought minus the shares sold, so no user ever sold more of a symbol than they bought |
| Ledger.LedgerStore.QuantityHeld | app/models/portfolio.py:151-152 | the answer is present exactly when the user has a row for the symbol, and is that row's quantity |
| Ledger.LedgerStore.HeldRows | app/models/portfolio.py:31-36 | each symbol with a positive quantity appears exactly once, and no other symbol appears |
| Ledger.LedgerStore.UpsertBuy | app/models/portfolio.py:95-101 | the key's row becomes `BuyInto` of its old row; every other row and the log are unchanged |
| Ledger.LedgerStore.DecrementQuantity | app/models/portfolio.py:169-173 | the key's row becomes `SellFrom` of its old row; every other row and the log are unchanged |
| Ledger.LedgerStore.InsertTransaction | app/models/portfolio.py:104-110 | appends exactly one row, whose id is the next id |
| Ledger.LedgerStore.Rollback | app/models/portfolio.py:122-125 | both tables return to the state saved at the start of the transaction |
| Ledger.LedgerStore.CommitTrade | app/models/portfolio.py:88-125 | on a fault at any step neither table changes; otherwise the table is `ApplyRow` of the new log row and the log gains exactly that row; the invariant holds either way |
| Ledger.UserHistory | app/models/portfolio.py:213-230 | the history holds a view of every row of the user and of no other row, each with total = price times quantity |
| Ledger.UserHistoryNewestFirst | app/models/portfolio.py:214-219 | with ids in commit order, the history's ids strictly decrease |
| Ledger.HistoryOfNumberedLogNewestFirst | app/models/portfolio.py:214-219 | the log of a consistent database yields histories that are newest first |
| Portfolio.PortfolioManager.constructor | app/models/portfolio.py:13-15 | a manager gets a new `StockApi` with an empty cache |
| Portfolio.PortfolioManager.Settle | app/models/portfolio.py:88-120 | on a fault nothing changes; otherwise the receipt has the new row's id and amount = price times quantity, the log gains the row, and the position is upserted (buy) or decremented (sell) |
| Portfolio.PortfolioManager.BuyStock | app/models/portfolio.py:64-129 | a non-positive quantity is refused with "Quantity must be positive" and nothing changes; a failed price lookup or a store fault writes nothing; a success returns the next id at the looked-up close, appends one BUY row, and upserts only the (user, symbol) row with the weighted average |
| Portfolio.PortfolioManager.SellStock | app/models/portfolio.py:131-201 | a non-positive quantity, then an uncovered sale, are refused before any lookup and change nothing; a success decrements only the (user, symbol) row by the quantity at the same average and appends one SELL row |
| Portfolio.ValueRowsStopsAtFailure | app/models/portfolio.py:44-62 | once a lookup has failed, the remaining rows change neither the error nor the cache |
| Portfolio.ValueRowsFrame | app/models/portfolio.py:44-45 | the loop changes the cache only under the price keys of its rows |
| Portfolio.ValueRowsLooksUpEachPrice | app/models/portfolio.py:44-45 | after a completed loop each row's price key holds what a lookup on the starting cache would have left there |
| Portfolio.ValueRowsIsOrderFree | app/models/portfolio.py:44-56 | each holding of a completed loop is valued at the close a lookup on the starting cache gives, whatever rows came before it |
| Portfolio.ValueRowsFailsAsARow | app/models/portfolio.py:44-62 | a failed loop raises the error that some row's lookup gives on the starting cache |
| Portfolio.PortfolioIsOrderFree | app/models/portfolio.py:31-56 | whatever order the rows come in: the holdings are exactly the positive positions, once each, each valued at its lookup's close; a failure is some held symbol's lookup error; only the held symbols' price keys change |
| Portfolio.ValuedRowsIncluded | app/models/portfolio.py:44-55 | a holding of one valuation is a holding of any other valuation that covers its symbol at a lookup giving the same answer |
| Positions.SumValuesPermutation | app/models/portfolio.py:40-56 | `total_value`, accumulated from 0.0 over the holdings, is the same for any reordering of the holdings |
| Positions.SameHoldingsSameTotal | app/models/portfolio.py:40-56 | two lists of distinct holdings with the same members are reorderings of each other and have the same total |
| Portfolio.ValueRowsLeavesQuotesFresh | app/models/portfolio.py:44-45 | after a completed loop, each row's quote, as a lookup on the starting cache gives it, is fresh in the cache |
| Portfolio.ValueRowsAllCached | app/models/portfolio.py:44-45 | a loop over rows whose prices are all fresh in the cache succeeds and leaves the cache exactly as it was |
| Portfolio.PortfolioReadTwice | app/models/portfolio.py:17-62 | two reads of the portfolio at the same instant with no trade between, in any row orders and whatever the provider answers the second time: the second succeeds, changes no cache entry, and has the same holdings (as a multiset) and the same total value |
| Portfolio.PortfolioManager.GetPortfolio | app/models/portfolio.py:17-62 | the rows are the held symbols once each; the holdings, the error and the new cache are those of `ValueRows` over them; the total is the sum of the holding values |
| Portfolio.PortfolioManager.GetTransactionHistory | app/models/portfolio.py:203-234 | the user's trades and no others, each with total = price times quantity, newest first |
| Portfolio.PortfolioManager.GetStockInfo | app/models/portfolio.py:236-259 | price, overview and compact history are looked up in that order, each on the cache the previous one left; the first failure is raised |

## Left out

- HTTP and JSON. The Alpha Vantage requests and `response.json()` are the
  oracle `Market.Provider`. It answers with a request failure, a body the
  code rejects with its own ValueError, or the decoded payload. Only what the code does after decoding is
  modelled.
- Python's `float(str)`. It is the oracle `parseFloat`. `int(...)` on the
  volume is folded into whether a day is readable.
- Malformed provider answers. In the source, each of these raises an
  exception that no handler of `get_stock_price`, `get_historical_data`,
  `get_company_info` or `validate_symbol` catches, except where a line says
  the answer is returned:
  - a `null` or numeric daily body: a TypeError from `in` (app/models/stock.py:87, 221);
  - a non-zero number as the overview body: a TypeError from `in` (app/models/stock.py:147);
  - a string as the overview body, containing "Symbol": a string has no `copy`, so an
    AttributeError (app/models/stock.py:164);
  - a JSON array as the overview body, containing "Symbol": `list.copy()` succeeds.
    If no element is a numeric field name, the list itself is cached and returned
    (app/models/stock.py:174-175). If one is, `result[field]` raises a TypeError
    (app/models/stock.py:169); the handler reads `result[field]` again, raises it again,
    and it escapes (app/models/stock.py:172);
  - a JSON array or string as the daily body, containing "Time Series (Daily)":
    indexing it with that string raises a TypeError (app/models/stock.py:92, 224);
  - a series that is not an object: an AttributeError from `.keys()` or `.items()`
    (app/models/stock.py:93, 234);
  - a day that is not an object, or a `null` field: a TypeError
    (app/models/stock.py:99-103, 229-233).

  `Market.Response` and `Market.DayEntry` do not represent these answers.
- Stock.Validation: the empty series is the only escaping error among the
  answers the model represents. The malformed daily answers above also escape
  `validate_symbol` in the source.
- A body that is not JSON counts as a request failure, `NetworkFailure`. In
  requests 2.27 and later, `response.json()` then raises requests'
  JSONDecodeError, which is a RequestException and is re-raised unchanged.
  Older requests would raise a plain ValueError, which gives the "Unable to
  get ..." message instead.
- Floating point. Prices, averages and totals are exact reals, so rounding
  in the weighted average is not captured.
- The API key check in `StockAPI.__init__` and the base URL. They are
  configuration, not modelled.
- Logging. It is not modelled anywhere.
- The SQLite plumbing of app/utils/sql_utils.py is not part of this model.
  The two tables are fields of `LedgerStore`. A database error inside the
  trade block is the injected `StoreFault`. The database starts empty.
- Concurrency. The model is sequential. The source checks the held quantity
  on one connection and decrements it on another, and the race between two
  sells in that gap is not modelled.
- Timestamps. The `datetime.now()` stamps in the receipts and on the
  transaction rows are not modelled. The history is ordered by commit order
  (the row id), so two rows with equal timestamps are not modelled.
- Portfolio.PortfolioManager.GetPortfolio: the order of the holdings comes
  from the database and is a ghost out-parameter, `rows`. The contract holds
  for every order, and `PortfolioIsOrderFree` states what does not depend on
  it.
- Portfolio.PortfolioManager.GetPortfolio: a holding row carries only its
  symbol. Its quantity and average price are read from the portfolio table,
  which is what the query returns.
- app/models/user.py, the Flask routes, app/__init__.py and app/config.py
  are not part of this model.

## Findings

| source | as written | input that shows it | evidently intended | confidence | as-written member | corrected member |
|---|---|---|---|---|---|---|
| app/models/stock.py:257-261 | `validate_symbol` catches only `RequestException` and `ValueError`. The empty-series case of `get_stock_price` raises an `IndexError` from `sorted(...)[-1]` (app/models/stock.py:93), which neither handler catches. | an uncached symbol whose answer has `"Time Series (Daily)": {}` | answer false, as the documentation ("True if valid, False otherwise") says | not executed | Stock.StockApi.ValidateSymbol, Stock.ValidateSymbolRaisesOnEmptySeries | Stock.StockApi.CheckSymbol |
