/**
 * `PortfolioManager` (app/models/portfolio.py): trades against the ledger,
 * priced through the manager's own `StockApi`.  A trade either commits both of
 * its writes or, when the database fails part-way, rolls both back; either way
 * the ledger stays consistent with its transaction log.
 */
module Portfolio {
  import opened Results
  import opened Market
  import opened QuoteCache
  import opened Stock
  import opened Positions
  import opened Ledger

  const QuantityMessage := "Quantity must be positive"
  const InsufficientMessage := "Insufficient shares for sale"

  /** What a manager operation raises: its own ValueErrors, the StockAPI's errors, or a database error. */
  datatype TradeError = Rejected(message: string) | PriceFailed(cause: ApiError) | StoreFailed

  /** The dictionary a trade returns; `amount` is `total_cost` of a buy and `total_proceeds` of a sell. */
  datatype Receipt = Receipt(transactionId: nat, symbol: string, quantity: Shares, price: real, amount: real)

  /** `total_cost` of a buy, `total_proceeds` of a sell: the price times the quantity. */
  function TradeAmount(price: real, quantity: Shares): real
  {
    price * quantity as real
  }

  /** The quote a trade is priced at: what `get_stock_price` answers on the cache `c`. */
  function LookedUpPrice(c: Cache, symbol: string, provider: Provider, now: int): Result<Quote, ApiError>
    requires WellKinded(c)
  {
    PriceQuery(c, symbol, provider, now).result
  }

  /** The dictionary `get_portfolio` returns. */
  datatype PortfolioView = PortfolioView(holdings: seq<Holding>, totalValue: real)

  /** The dictionary `get_stock_info` returns. */
  datatype StockInfo = StockInfo(currentPrice: Quote, companyInfo: map<string, InfoValue>, historicalData: History)

  function SymbolsOf(holdings: seq<Holding>): set<string>
  {
    set h | h in holdings :: h.symbol
  }

  /** Holdings built one per row carry exactly the rows' symbols. */
  lemma SymbolsFollowRows(holdings: seq<Holding>, rows: seq<string>)
    requires |holdings| == |rows|
    requires forall j :: 0 <= j < |rows| ==> holdings[j].symbol == rows[j]
    ensures forall s :: s in SymbolsOf(holdings) <==> s in rows
  {
    forall s | s in rows
      ensures s in SymbolsOf(holdings)
    {
      var j :| 0 <= j < |rows| && rows[j] == s;
      assert holdings[j] in holdings;
    }
  }

  predicate AllHeld(table: PositionTable, userId: int, rows: seq<string>)
  {
    forall j :: 0 <= j < |rows| ==> PositionKey(userId, rows[j]) in table
  }

  /**
   * The loop of `get_portfolio` over the rows of its query, in their order:
   * each symbol's price is looked up on the cache the previous lookups left,
   * its holding is valued at that close, and the first failing lookup ends
   * the loop with its error.
   */
  function ValueRows(c: Cache, table: PositionTable, userId: int, rows: seq<string>, provider: Provider, now: int)
    : (f: Fetched<seq<Holding>>)
    requires WellKinded(c) && AllHeld(table, userId, rows)
    ensures WellKinded(f.cache)
  {
    if rows == [] then Fetched(Ok([]), c)
    else
      var prior := ValueRows(c, table, userId, rows[..|rows| - 1], provider, now);
      if prior.result.Err? then prior
      else
        var symbol := rows[|rows| - 1];
        var price := PriceQuery(prior.cache, symbol, provider, now);
        if price.result.Err? then Fetched(Err(price.result.error), price.cache)
        else
          var holding := Valuate(symbol, table[PositionKey(userId, symbol)], price.result.value.close);
          Fetched(Ok(prior.result.value + [holding]), price.cache)
  }

  /** One more row: its lookup runs on the cache the earlier rows left behind. */
  lemma ValueRowsStep(c: Cache, table: PositionTable, userId: int, rows: seq<string>, i: nat, provider: Provider, now: int)
    requires WellKinded(c) && AllHeld(table, userId, rows) && i < |rows|
    requires ValueRows(c, table, userId, rows[..i], provider, now).result.Ok?
    ensures var prior := ValueRows(c, table, userId, rows[..i], provider, now);
            var price := PriceQuery(prior.cache, rows[i], provider, now);
            ValueRows(c, table, userId, rows[..i + 1], provider, now)
              == if price.result.Err? then Fetched(Err(price.result.error), price.cache)
                 else Fetched(Ok(prior.result.value + [Valuate(rows[i], table[PositionKey(userId, rows[i])], price.result.value.close)]),
                              price.cache)
  {
    assert rows[..i + 1][..i] == rows[..i];
  }

  /** Every prefix of held rows is held. */
  lemma AllHeldPrefix(table: PositionTable, userId: int, rows: seq<string>, n: nat)
    requires AllHeld(table, userId, rows) && n <= |rows|
    ensures AllHeld(table, userId, rows[..n])
  {
  }

  /** A non-empty row list is its prefix followed by its last row. */
  lemma SplitLast(rows: seq<string>, n: nat)
    requires n + 1 == |rows|
    ensures rows[..n + 1] == rows == rows[..n] + [rows[n]]
  {
  }

  /** Dropping the last row keeps the rows distinct, and the last row is not among the others. */
  lemma DistinctLast(rows: seq<string>)
    requires rows != [] && Distinct(rows)
    ensures rows[|rows| - 1] !in rows[..|rows| - 1] && Distinct(rows[..|rows| - 1])
  {
  }

  /** Once a lookup has failed, the remaining rows change nothing. */
  lemma {:induction false} ValueRowsStopsAtFailure(c: Cache, table: PositionTable, userId: int, rows: seq<string>,
                                                   n: nat, provider: Provider, now: int)
    requires WellKinded(c) && AllHeld(table, userId, rows) && n <= |rows|
    requires ValueRows(c, table, userId, rows[..n], provider, now).result.Err?
    ensures ValueRows(c, table, userId, rows, provider, now) == ValueRows(c, table, userId, rows[..n], provider, now)
  {
    if n < |rows| {
      var prefix := rows[..|rows| - 1];
      assert prefix[..n] == rows[..n];
      ValueRowsStopsAtFailure(c, table, userId, prefix, n, provider, now);
    } else {
      assert rows[..n] == rows;
    }
  }

  /** The cache key is the price key of one of the symbols. */
  ghost predicate IsPriceKeyOf(key: string, symbols: seq<string>)
  {
    exists s :: s in symbols && key == PriceKey(s)
  }

  /** The holding values the user's position in its symbol at the close a lookup on cache `c` gives. */
  predicate ValuedAt(h: Holding, table: PositionTable, userId: int, c: Cache, provider: Provider, now: int)
    requires WellKinded(c)
  {
    var price := PriceQuery(c, h.symbol, provider, now).result;
    PositionKey(userId, h.symbol) in table && price.Ok? &&
    h == Valuate(h.symbol, table[PositionKey(userId, h.symbol)], price.value.close)
  }

  /** Cache `c` holds, under each symbol's price key, what a lookup on `c0` leaves there. */
  ghost predicate PricesLookedUp(c: Cache, c0: Cache, symbols: seq<string>, provider: Provider, now: int)
    requires WellKinded(c0)
  {
    forall s :: s in symbols ==> Agrees(c, PriceQuery(c0, s, provider, now).cache, PriceKey(s))
  }

  /** Cache `c` agrees with `c0` on every key but the price keys of the symbols. */
  ghost predicate UntouchedOutside(c: Cache, c0: Cache, symbols: seq<string>)
  {
    forall k :: !IsPriceKeyOf(k, symbols) ==> Agrees(c, c0, k)
  }

  /**
   * One price lookup of the loop, made on a cache that still holds the
   * starting entry under the symbol's own key: afterwards the cache holds,
   * under the price key of every symbol done so far and of this one, what a
   * lookup on the starting cache `c0` would have left there.
   */
  lemma PriceLookupStep(c0: Cache, before: Cache, done: seq<string>, symbol: string, provider: Provider, now: int)
    requires WellKinded(c0) && WellKinded(before)
    requires symbol !in done
    requires Agrees(before, c0, PriceKey(symbol))
    requires PricesLookedUp(before, c0, done, provider, now)
    ensures PricesLookedUp(PriceQuery(before, symbol, provider, now).cache, c0, done + [symbol], provider, now)
  {
    var after := PriceQuery(before, symbol, provider, now).cache;
    PriceQueryIsLocal(before, c0, symbol, provider, now);
    forall s | s in done + [symbol]
      ensures Agrees(after, PriceQuery(c0, s, provider, now).cache, PriceKey(s))
    {
      if s != symbol {
        PriceAndInfoKeysInjective(symbol, s);
        PriceQueryFrame(before, symbol, provider, now, PriceKey(s));
      }
    }
  }

  /** Holdings valued one per row, in the rows' order, at the closes of lookups on `c`. */
  predicate ValuedRows(holdings: seq<Holding>, rows: seq<string>, table: PositionTable, userId: int, c: Cache,
                       provider: Provider, now: int)
    requires WellKinded(c)
  {
    && |holdings| == |rows|
    && (forall j :: 0 <= j < |rows| ==> holdings[j].symbol == rows[j])
    && (forall j :: 0 <= j < |rows| ==> ValuedAt(holdings[j], table, userId, c, provider, now))
  }

  lemma ValuedRowsAppend(holdings: seq<Holding>, rows: seq<string>, h: Holding, table: PositionTable, userId: int,
                         c: Cache, provider: Provider, now: int)
    requires WellKinded(c)
    requires ValuedRows(holdings, rows, table, userId, c, provider, now)
    requires ValuedAt(h, table, userId, c, provider, now)
    ensures ValuedRows(holdings + [h], rows + [h.symbol], table, userId, c, provider, now)
  {
    assert forall j :: 0 <= j < |holdings| ==> (holdings + [h])[j] == holdings[j];
  }

  /** The loop changes the cache only under the price keys of its rows. */
  lemma {:induction false} ValueRowsFrame(c: Cache, table: PositionTable, userId: int, rows: seq<string>,
                                          provider: Provider, now: int)
    requires WellKinded(c) && AllHeld(table, userId, rows)
    ensures UntouchedOutside(ValueRows(c, table, userId, rows, provider, now).cache, c, rows)
  {
    if rows != [] {
      var n := |rows| - 1;
      var prefix := rows[..n];
      var symbol := rows[n];
      AllHeldPrefix(table, userId, rows, n);
      ValueRowsFrame(c, table, userId, prefix, provider, now);
      var prior := ValueRows(c, table, userId, prefix, provider, now);
      var after := ValueRows(c, table, userId, rows, provider, now).cache;
      forall k | !IsPriceKeyOf(k, rows)
        ensures Agrees(after, c, k)
      {
        assert k != PriceKey(symbol) by {
          assert symbol in rows;
        }
        assert !IsPriceKeyOf(k, prefix);
        if prior.result.Ok? {
          PriceQueryFrame(prior.cache, symbol, provider, now, k);
        }
      }
    }
  }

  /** The loop leaves alone the price key of a symbol that is not among its rows. */
  lemma ValueRowsLeavesOtherKeys(c: Cache, table: PositionTable, userId: int, rows: seq<string>, symbol: string,
                                 provider: Provider, now: int)
    requires WellKinded(c) && AllHeld(table, userId, rows) && symbol !in rows
    ensures Agrees(ValueRows(c, table, userId, rows, provider, now).cache, c, PriceKey(symbol))
  {
    ValueRowsFrame(c, table, userId, rows, provider, now);
    assert !IsPriceKeyOf(PriceKey(symbol), rows) by {
      forall s | s in rows
        ensures PriceKey(symbol) != PriceKey(s)
      {
        PriceAndInfoKeysInjective(symbol, s);
      }
    }
  }

  /**
   * The order of the rows does not matter to what each lookup answers: every
   * lookup answers as it would have on the starting cache, each on its own
   * key.  So a completed loop leaves each row's price key as a lookup on the
   * starting cache would.
   */
  lemma {:induction false} ValueRowsLooksUpEachPrice(c: Cache, table: PositionTable, userId: int, rows: seq<string>,
                                                     provider: Provider, now: int)
    requires WellKinded(c) && AllHeld(table, userId, rows) && Distinct(rows)
    ensures var f := ValueRows(c, table, userId, rows, provider, now);
            f.result.Ok? ==> PricesLookedUp(f.cache, c, rows, provider, now)
  {
    if rows != [] {
      var n := |rows| - 1;
      var prefix := rows[..n];
      var symbol := rows[n];
      AllHeldPrefix(table, userId, rows, n);
      var prior := ValueRows(c, table, userId, prefix, provider, now);
      if prior.result.Ok? {
        DistinctLast(rows);
        ValueRowsLooksUpEachPrice(c, table, userId, prefix, provider, now);
        ValueRowsLeavesOtherKeys(c, table, userId, prefix, symbol, provider, now);
        PriceLookupStep(c, prior.cache, prefix, symbol, provider, now);
        ValueRowsStep(c, table, userId, rows, n, provider, now);
        SplitLast(rows, n);
      }
    }
  }

  /**
   * For the same reason a completed loop values each row at the close that a
   * lookup on the starting cache would give, whatever rows came before it.
   */
  lemma {:induction false} ValueRowsIsOrderFree(c: Cache, table: PositionTable, userId: int, rows: seq<string>,
                                                provider: Provider, now: int)
    requires WellKinded(c) && AllHeld(table, userId, rows) && Distinct(rows)
    ensures var f := ValueRows(c, table, userId, rows, provider, now);
            f.result.Ok? ==> ValuedRows(f.result.value, rows, table, userId, c, provider, now)
  {
    if rows != [] {
      var n := |rows| - 1;
      var prefix := rows[..n];
      var symbol := rows[n];
      AllHeldPrefix(table, userId, rows, n);
      var prior := ValueRows(c, table, userId, prefix, provider, now);
      if prior.result.Ok? {
        DistinctLast(rows);
        ValueRowsIsOrderFree(c, table, userId, prefix, provider, now);
        ValueRowsLeavesOtherKeys(c, table, userId, prefix, symbol, provider, now);
        PriceQueryIsLocal(prior.cache, c, symbol, provider, now);
        ValueRowsStep(c, table, userId, rows, n, provider, now);
        SplitLast(rows, n);
        var price := PriceQuery(prior.cache, symbol, provider, now);
        if price.result.Ok? {
          var holding := Valuate(symbol, table[PositionKey(userId, symbol)], price.result.value.close);
          assert ValuedAt(holding, table, userId, c, provider, now);
          ValuedRowsAppend(prior.result.value, prefix, holding, table, userId, c, provider, now);
        }
      }
    }
  }

  /** A failed loop raises the error that one of its rows' lookups gives on the starting cache. */
  lemma {:induction false} ValueRowsFailsAsARow(c: Cache, table: PositionTable, userId: int, rows: seq<string>,
                                                provider: Provider, now: int)
    requires WellKinded(c) && AllHeld(table, userId, rows) && Distinct(rows)
    ensures var f := ValueRows(c, table, userId, rows, provider, now);
            f.result.Err? ==> exists j :: 0 <= j < |rows| && PriceQuery(c, rows[j], provider, now).result == Err(f.result.error)
  {
    if rows != [] {
      var n := |rows| - 1;
      var prefix := rows[..n];
      var symbol := rows[n];
      AllHeldPrefix(table, userId, rows, n);
      var prior := ValueRows(c, table, userId, prefix, provider, now);
      DistinctLast(rows);
      if prior.result.Err? {
        ValueRowsFailsAsARow(c, table, userId, prefix, provider, now);
        var j :| 0 <= j < |prefix| && PriceQuery(c, prefix[j], provider, now).result == Err(prior.result.error);
        assert rows[j] == prefix[j];
      } else {
        ValueRowsLeavesOtherKeys(c, table, userId, prefix, symbol, provider, now);
        PriceQueryIsLocal(prior.cache, c, symbol, provider, now);
      }
    }
  }

  /**
   * Whatever order the database yields the holdings in, `get_portfolio`
   * values every symbol the user holds a positive quantity of, once each, at
   * the close a lookup on the original cache gives, and totals the values;
   * when a lookup fails, the error raised is that of some held symbol's
   * lookup.  Only the held symbols' price keys change in the cache.
   */
  lemma PortfolioIsOrderFree(c: Cache, table: PositionTable, userId: int, rows: seq<string>, provider: Provider, now: int)
    requires WellKinded(c) && HoldingsQuery(table, userId, rows)
    ensures AllHeld(table, userId, rows)
    ensures var held := HeldSymbols(table, userId);
            var f := ValueRows(c, table, userId, rows, provider, now);
            f.result.Ok? ==>
              && SymbolsOf(f.result.value) == held
              && |f.result.value| == |held|
              && (forall j :: 0 <= j < |f.result.value| ==> ValuedAt(f.result.value[j], table, userId, c, provider, now))
              && (forall s :: s in held ==> Agrees(f.cache, PriceQuery(c, s, provider, now).cache, PriceKey(s)))
    ensures var held := HeldSymbols(table, userId);
            var f := ValueRows(c, table, userId, rows, provider, now);
            f.result.Err? ==> exists s :: s in held && PriceQuery(c, s, provider, now).result == Err(f.result.error)
    ensures var held := HeldSymbols(table, userId);
            var f := ValueRows(c, table, userId, rows, provider, now);
            forall k :: (forall s :: s in held ==> k != PriceKey(s)) ==> Agrees(f.cache, c, k)
  {
    var held := HeldSymbols(table, userId);
    assert AllHeld(table, userId, rows) by {
      forall j | 0 <= j < |rows|
        ensures PositionKey(userId, rows[j]) in table
      {
        assert rows[j] in held;
      }
    }
    ValueRowsIsOrderFree(c, table, userId, rows, provider, now);
    ValueRowsLooksUpEachPrice(c, table, userId, rows, provider, now);
    ValueRowsFailsAsARow(c, table, userId, rows, provider, now);
    ValueRowsFrame(c, table, userId, rows, provider, now);
    var f := ValueRows(c, table, userId, rows, provider, now);
    if f.result.Ok? {
      SymbolsFollowRows(f.result.value, rows);
    } else {
      var j :| 0 <= j < |rows| && PriceQuery(c, rows[j], provider, now).result == Err(f.result.error);
      assert rows[j] in held;
    }
    forall k | forall s :: s in held ==> k != PriceKey(s)
      ensures Agrees(f.cache, c, k)
    {
      assert !IsPriceKeyOf(k, rows);
    }
  }

  /** A loop over rows whose prices are all fresh in the cache reads every price from it and changes nothing. */
  lemma {:induction false} ValueRowsAllCached(d: Cache, table: PositionTable, userId: int, rows: seq<string>,
                                              provider: Provider, now: int)
    requires WellKinded(d) && AllHeld(table, userId, rows)
    requires forall s :: s in rows ==> Lookup(d, PriceKey(s), now).Some?
    ensures var f := ValueRows(d, table, userId, rows, provider, now);
            f.result.Ok? && f.cache == d
  {
    if rows != [] {
      var n := |rows| - 1;
      AllHeldPrefix(table, userId, rows, n);
      ValueRowsAllCached(d, table, userId, rows[..n], provider, now);
    }
  }

  /** After a completed loop, each row's quote, as a lookup on the starting cache gives it, is fresh in the cache. */
  lemma ValueRowsLeavesQuotesFresh(c: Cache, table: PositionTable, userId: int, rows: seq<string>,
                                   provider: Provider, now: int)
    requires WellKinded(c) && AllHeld(table, userId, rows) && Distinct(rows)
    ensures var f := ValueRows(c, table, userId, rows, provider, now);
            f.result.Ok? ==>
              forall s :: s in rows ==>
                PriceQuery(c, s, provider, now).result.Ok? &&
                Lookup(f.cache, PriceKey(s), now) == Some(QuoteData(PriceQuery(c, s, provider, now).result.value))
  {
    var f := ValueRows(c, table, userId, rows, provider, now);
    if f.result.Ok? {
      ValueRowsIsOrderFree(c, table, userId, rows, provider, now);
      ValueRowsLooksUpEachPrice(c, table, userId, rows, provider, now);
      forall s | s in rows
        ensures PriceQuery(c, s, provider, now).result.Ok?
        ensures Lookup(f.cache, PriceKey(s), now) == Some(QuoteData(PriceQuery(c, s, provider, now).result.value))
      {
        var j :| 0 <= j < |rows| && rows[j] == s;
        assert ValuedAt(f.result.value[j], table, userId, c, provider, now);
        assert Agrees(f.cache, PriceQuery(c, s, provider, now).cache, PriceKey(s));
      }
    }
  }

  /** Holdings valued one per distinct row are distinct. */
  lemma ValuedRowsNoRepeats(holdings: seq<Holding>, rows: seq<string>, table: PositionTable, userId: int, c: Cache,
                            provider: Provider, now: int)
    requires WellKinded(c) && ValuedRows(holdings, rows, table, userId, c, provider, now) && Distinct(rows)
    ensures NoRepeats(holdings)
  {
  }

  /**
   * Each holding of a valuation is a holding of any other valuation that
   * covers its symbol at a lookup giving the same answer.
   */
  lemma ValuedRowsIncluded(h1: seq<Holding>, rows1: seq<string>, c1: Cache, provider1: Provider,
                           h2: seq<Holding>, rows2: seq<string>, c2: Cache, provider2: Provider,
                           table: PositionTable, userId: int, now: int)
    requires WellKinded(c1) && WellKinded(c2)
    requires ValuedRows(h1, rows1, table, userId, c1, provider1, now)
    requires ValuedRows(h2, rows2, table, userId, c2, provider2, now)
    requires forall s :: s in rows1 ==> s in rows2
    requires forall s :: s in rows1 ==> PriceQuery(c1, s, provider1, now).result == PriceQuery(c2, s, provider2, now).result
    ensures forall h :: h in h1 ==> h in h2
  {
    forall h | h in h1
      ensures h in h2
    {
      var j :| 0 <= j < |h1| && h1[j] == h;
      assert rows1[j] in rows2;
      var i :| 0 <= i < |rows2| && rows2[i] == rows1[j];
      assert ValuedAt(h1[j], table, userId, c1, provider1, now) && ValuedAt(h2[i], table, userId, c2, provider2, now);
    }
  }

  /**
   * `get_portfolio` read twice at the same instant, with no trade between:
   * the second read is answered from the cache the first one left, whatever
   * the provider now answers and whatever order the rows come in, and yields
   * the same holdings (up to order) and the same `total_value`.
   */
  lemma PortfolioReadTwice(c: Cache, table: PositionTable, userId: int, rows1: seq<string>, rows2: seq<string>,
                           provider: Provider, provider2: Provider, now: int)
    requires WellKinded(c) && HoldingsQuery(table, userId, rows1) && HoldingsQuery(table, userId, rows2)
    ensures AllHeld(table, userId, rows1) && AllHeld(table, userId, rows2)
    ensures var f1 := ValueRows(c, table, userId, rows1, provider, now);
            var f2 := ValueRows(f1.cache, table, userId, rows2, provider2, now);
            f1.result.Ok? ==>
              && f2.result.Ok?
              && f2.cache == f1.cache
              && multiset(f2.result.value) == multiset(f1.result.value)
              && SumValues(f2.result.value) == SumValues(f1.result.value)
  {
    PortfolioIsOrderFree(c, table, userId, rows1, provider, now);
    PortfolioIsOrderFree(c, table, userId, rows2, provider, now);
    var f1 := ValueRows(c, table, userId, rows1, provider, now);
    if f1.result.Ok? {
      ValueRowsLeavesQuotesFresh(c, table, userId, rows1, provider, now);
      ValueRowsAllCached(f1.cache, table, userId, rows2, provider2, now);
      var f2 := ValueRows(f1.cache, table, userId, rows2, provider2, now);
      forall s | s in rows1
        ensures PriceQuery(c, s, provider, now).result == PriceQuery(f1.cache, s, provider2, now).result
      {
      }
      ValueRowsIsOrderFree(c, table, userId, rows1, provider, now);
      ValueRowsIsOrderFree(f1.cache, table, userId, rows2, provider2, now);
      ValuedRowsNoRepeats(f1.result.value, rows1, table, userId, c, provider, now);
      ValuedRowsNoRepeats(f2.result.value, rows2, table, userId, f1.cache, provider2, now);
      ValuedRowsIncluded(f1.result.value, rows1, c, provider, f2.result.value, rows2, f1.cache, provider2,
                         table, userId, now);
      ValuedRowsIncluded(f2.result.value, rows2, f1.cache, provider2, f1.result.value, rows1, c, provider,
                         table, userId, now);
      SameHoldingsSameTotal(f2.result.value, f1.result.value);
    }
  }

  class PortfolioManager {
    /** The SQLite database the manager's queries go to. */
    const store: LedgerStore
    /** `self.stock_api` */
    const stockApi: StockApi

    ghost predicate Valid()
      reads store, stockApi
    {
      store.Valid() && stockApi.Valid()
    }

    /** `__init__`: a manager over the database, with a new StockAPI of its own. */
    constructor (store: LedgerStore)
      requires store.Valid()
      ensures this.store == store && fresh(stockApi) && stockApi.cache == map[]
      ensures Valid()
    {
      this.store := store;
      stockApi := new StockApi();
    }

    /**
     * The second half of `buy_stock` and `sell_stock`: the position and the log
     * row are written in one database transaction at the fetched price, and
     * the receipt carries the new row's id and the amount paid or received.
     * A failing write leaves the database as it was.
     */
    method Settle(userId: int, symbol: string, quantity: Shares, price: real, side: Side, fault: StoreFault)
      returns (r: Result<Receipt, TradeError>)
      requires store.Valid()
      requires side == Sell ==> CanSell(store.positions, userId, symbol, quantity)
      modifies store
      ensures store.Valid()
      ensures fault != NoFault ==>
                r == Err(StoreFailed) && store.positions == old(store.positions) && store.transactions == old(store.transactions)
      ensures fault == NoFault ==>
                && r == Ok(Receipt(|old(store.transactions)| + 1, symbol, quantity, price, TradeAmount(price, quantity)))
                && store.transactions == old(store.transactions) +
                     [TransactionRow(|old(store.transactions)| + 1, userId, symbol, quantity, price, side)]
      ensures var key := PositionKey(userId, symbol);
              fault == NoFault && side == Buy ==>
                store.positions == old(store.positions)[key := BuyInto(Get(old(store.positions), key), quantity, price)]
      ensures var key := PositionKey(userId, symbol);
              fault == NoFault && side == Sell ==>
                store.positions == old(store.positions)[key := SellFrom(old(store.positions)[key], quantity)]
    {
      var amount := TradeAmount(price, quantity);
      var id := store.CommitTrade(userId, symbol, quantity, price, side, fault);
      if id.None? {
        return Err(StoreFailed);
      }
      return Ok(Receipt(id.value, symbol, quantity, price, amount));
    }

    /**
     * `buy_stock`.  A non-positive quantity is refused before anything else;
     * otherwise the price is fetched (and cached) and the position and the
     * log row are written together: the position gets the weighted average of
     * the old holding and the new shares, the log a BUY row with the next id.
     */
    method BuyStock(userId: int, symbol: string, quantity: int, provider: Provider, now: int, fault: StoreFault)
      returns (r: Result<Receipt, TradeError>)
      requires Valid()
      modifies store, stockApi
      ensures Valid()
      ensures quantity <= 0 ==>
                r == Err(Rejected(QuantityMessage)) && stockApi.cache == old(stockApi.cache)
                && store.positions == old(store.positions) && store.transactions == old(store.transactions)
      ensures quantity > 0 ==> stockApi.cache == PriceQuery(old(stockApi.cache), symbol, provider, now).cache
      ensures var price := LookedUpPrice(old(stockApi.cache), symbol, provider, now);
              quantity > 0 && price.Err? ==>
                r == Err(PriceFailed(price.error))
                && store.positions == old(store.positions) && store.transactions == old(store.transactions)
      ensures var price := LookedUpPrice(old(stockApi.cache), symbol, provider, now);
              quantity > 0 && price.Ok? && fault != NoFault ==>
                r == Err(StoreFailed)
                && store.positions == old(store.positions) && store.transactions == old(store.transactions)
      ensures var price := LookedUpPrice(old(stockApi.cache), symbol, provider, now);
              var id := |old(store.transactions)| + 1;
              quantity > 0 && price.Ok? && fault == NoFault ==>
                && r == Ok(Receipt(id, symbol, quantity, price.value.close, TradeAmount(price.value.close, quantity)))
                && store.transactions
                     == old(store.transactions) + [TransactionRow(id, userId, symbol, quantity, price.value.close, Buy)]
      ensures var price := LookedUpPrice(old(stockApi.cache), symbol, provider, now);
              var key := PositionKey(userId, symbol);
              quantity > 0 && price.Ok? && fault == NoFault ==>
                store.positions
                  == old(store.positions)[key := BuyInto(Get(old(store.positions), key), quantity, price.value.close)]
    {
      if quantity <= 0 {
        return Err(Rejected(QuantityMessage));
      }
      var current := stockApi.GetStockPrice(symbol, provider, now);
      if current.Err? {
        return Err(PriceFailed(current.error));
      }
      r := Settle(userId, symbol, quantity, current.value.close, Buy, fault);
    }

    /**
     * `sell_stock`.  A non-positive quantity, then a sale of more shares than
     * the portfolio row holds (or of a symbol without a row), is refused
     * before the price is fetched; otherwise the quantity is decremented, at
     * an unchanged average price, together with a SELL row in the log.
     */
    method SellStock(userId: int, symbol: string, quantity: int, provider: Provider, now: int, fault: StoreFault)
      returns (r: Result<Receipt, TradeError>)
      requires Valid()
      modifies store, stockApi
      ensures Valid()
      ensures quantity <= 0 ==>
                r == Err(Rejected(QuantityMessage)) && stockApi.cache == old(stockApi.cache)
                && store.positions == old(store.positions) && store.transactions == old(store.transactions)
      ensures quantity > 0 && !CanSell(old(store.positions), userId, symbol, quantity) ==>
                r == Err(Rejected(InsufficientMessage)) && stockApi.cache == old(stockApi.cache)
                && store.positions == old(store.positions) && store.transactions == old(store.transactions)
      ensures quantity > 0 && CanSell(old(store.positions), userId, symbol, quantity) ==>
                stockApi.cache == PriceQuery(old(stockApi.cache), symbol, provider, now).cache
      ensures var price := LookedUpPrice(old(stockApi.cache), symbol, provider, now);
              quantity > 0 && CanSell(old(store.positions), userId, symbol, quantity) && price.Err? ==>
                r == Err(PriceFailed(price.error))
                && store.positions == old(store.positions) && store.transactions == old(store.transactions)
      ensures var price := LookedUpPrice(old(stockApi.cache), symbol, provider, now);
              quantity > 0 && CanSell(old(store.positions), userId, symbol, quantity) && price.Ok? && fault != NoFault ==>
                r == Err(StoreFailed)
                && store.positions == old(store.positions) && store.transactions == old(store.transactions)
      ensures var price := LookedUpPrice(old(stockApi.cache), symbol, provider, now);
              var id := |old(store.transactions)| + 1;
              quantity > 0 && CanSell(old(store.positions), userId, symbol, quantity) && price.Ok? && fault == NoFault ==>
                && r == Ok(Receipt(id, symbol, quantity, price.value.close, TradeAmount(price.value.close, quantity)))
                && store.transactions
                     == old(store.transactions) + [TransactionRow(id, userId, symbol, quantity, price.value.close, Sell)]
      ensures var price := LookedUpPrice(old(stockApi.cache), symbol, provider, now);
              var key := PositionKey(userId, symbol);
              quantity > 0 && CanSell(old(store.positions), userId, symbol, quantity) && price.Ok? && fault == NoFault ==>
                store.positions == old(store.positions)[key := SellFrom(old(store.positions)[key], quantity)]
    {
      if quantity <= 0 {
        return Err(Rejected(QuantityMessage));
      }
      var held := store.QuantityHeld(userId, symbol);
      if held.None? || held.value < quantity {
        return Err(Rejected(InsufficientMessage));
      }
      var current := stockApi.GetStockPrice(symbol, provider, now);
      if current.Err? {
        return Err(PriceFailed(current.error));
      }
      r := Settle(userId, symbol, quantity, current.value.close, Sell, fault);
    }

    /**
     * `get_portfolio`: one holding per symbol the user holds a positive
     * quantity of, valued at the close the price lookup gives for it, and the
     * sum of their values.  Each symbol's lookup sees its own cache entry as
     * it was before the call; the first failing lookup is raised.
     */
    method GetPortfolio(userId: int, provider: Provider, now: int)
      returns (r: Result<PortfolioView, TradeError>, ghost rows: seq<string>)
      requires Valid()
      modifies stockApi
      ensures Valid()
      ensures HoldingsQuery(store.positions, userId, rows)
      ensures var f := ValueRows(old(stockApi.cache), store.positions, userId, rows, provider, now);
              && stockApi.cache == f.cache
              && r == if f.result.Ok? then Ok(PortfolioView(f.result.value, SumValues(f.result.value)))
                      else Err(PriceFailed(f.result.error))
    {
      ghost var start := stockApi.cache;
      ghost var table := store.positions;
      var symbols := store.HeldRows(userId);
      rows := symbols;
      var holdings: seq<Holding> := [];
      var total := 0.0;
      for i := 0 to |symbols|
        invariant stockApi.Valid()
        invariant ValueRows(start, table, userId, symbols[..i], provider, now) == Fetched(Ok(holdings), stockApi.cache)
        invariant total == SumValues(holdings)
      {
        var symbol := symbols[i];
        var current := stockApi.GetStockPrice(symbol, provider, now);
        ValueRowsStep(start, table, userId, symbols, i, provider, now);
        if current.Err? {
          ValueRowsStopsAtFailure(start, table, userId, symbols, i + 1, provider, now);
          return Err(PriceFailed(current.error)), rows;
        }
        var holding := Valuate(symbol, store.positions[PositionKey(userId, symbol)], current.value.close);
        holdings := holdings + [holding];
        total := total + holding.totalValue;
      }
      assert symbols[..|symbols|] == symbols;
      return Ok(PortfolioView(holdings, total)), rows;
    }

    /** `get_transaction_history`: the user's trades, each with its total, latest first. */
    function GetTransactionHistory(userId: int): (h: seq<TransactionView>)
      requires store.Valid()
      reads store
      ensures NewestFirst(h)
      ensures forall v :: v in h ==> exists row :: row in store.transactions && row.userId == userId && v == ViewOf(row)
      ensures forall row :: row in store.transactions && row.userId == userId ==> ViewOf(row) in h
      ensures forall v :: v in h ==> v.total == v.price * v.quantity as real
    {
      HistoryOfNumberedLogNewestFirst(store.transactions, userId);
      UserHistory(store.transactions, userId)
    }

    /**
     * `get_stock_info`: the price, the company overview and the compact daily
     * history, looked up in that order; the first failure is raised.
     */
    method GetStockInfo(symbol: string, provider: Provider, parseFloat: string -> Option<real>, now: int)
      returns (r: Result<StockInfo, ApiError>)
      requires Valid()
      modifies stockApi
      ensures Valid()
      ensures var p := PriceQuery(old(stockApi.cache), symbol, provider, now);
              p.result.Err? ==> r == Err(p.result.error) && stockApi.cache == p.cache
      ensures var p := PriceQuery(old(stockApi.cache), symbol, provider, now);
              var i := InfoQuery(p.cache, symbol, provider, parseFloat, now);
              p.result.Ok? && i.result.Err? ==> r == Err(i.result.error) && stockApi.cache == i.cache
      ensures var p := PriceQuery(old(stockApi.cache), symbol, provider, now);
              var i := InfoQuery(p.cache, symbol, provider, parseFloat, now);
              var d := HistoryQuery(i.cache, symbol, "compact", provider, now);
              p.result.Ok? && i.result.Ok? ==>
                stockApi.cache == d.cache &&
                r == (if d.result.Ok? then Ok(StockInfo(p.result.value, i.result.value, d.result.value))
                      else Err(d.result.error))
    {
      var currentPrice := stockApi.GetStockPrice(symbol, provider, now);
      if currentPrice.Err? {
        return Err(currentPrice.error);
      }
      var companyInfo := stockApi.GetCompanyInfo(symbol, provider, parseFloat, now);
      if companyInfo.Err? {
        return Err(companyInfo.error);
      }
      var historicalData := stockApi.GetHistoricalData(symbol, provider, now);
      if historicalData.Err? {
        return Err(historicalData.error);
      }
      return Ok(StockInfo(currentPrice.value, companyInfo.value, historicalData.value));
    }
  }
}
