/**
 * The two tables `buy_stock` and `sell_stock` write (app/models/portfolio.py):
 * `portfolio`, one row per (user_id, symbol), and the append-only
 * `transactions`.  The store is a class whose methods are the SQL statements;
 * its invariant is that the portfolio table is exactly what replaying the
 * transaction log produces, which is what committing both writes together or
 * neither preserves.
 */
module Ledger {
  import opened Results
  import opened Positions

  /** `transaction_type`: 'BUY' or 'SELL'. */
  datatype Side = Buy | Sell

  /** The UNIQUE (user_id, symbol) key of the portfolio table. */
  datatype PositionKey = PositionKey(userId: int, symbol: string)

  /** A row of the transactions table; its id is the AUTOINCREMENT rowid. */
  datatype TransactionRow = TransactionRow(id: nat, userId: int, symbol: string, quantity: Shares, price: real, side: Side)

  /**
   * Where the database raises inside a trade's BEGIN ... COMMIT block: on the
   * portfolio write, on the transaction insert, or on the commit itself.
   */
  datatype StoreFault = NoFault | FailsOnPositionWrite | FailsOnTransactionInsert | FailsOnCommit

  type PositionTable = map<PositionKey, Position>

  function KeyOf(row: TransactionRow): PositionKey
  {
    PositionKey(row.userId, row.symbol)
  }

  function Get(table: PositionTable, key: PositionKey): Option<Position>
  {
    if key in table then Some(table[key]) else None
  }

  /** The user has a row for the symbol holding at least `quantity` shares. */
  predicate CanSell(table: PositionTable, userId: int, symbol: string, quantity: int)
  {
    var key := PositionKey(userId, symbol);
    key in table && quantity <= table[key].quantity
  }

  /** A buy always applies; a sell only to a row holding at least as many shares. */
  predicate Applies(table: PositionTable, row: TransactionRow)
  {
    row.side == Buy || CanSell(table, row.userId, row.symbol, row.quantity)
  }

  /** The effect of one committed trade on the portfolio table. */
  function ApplyRow(table: PositionTable, row: TransactionRow): PositionTable
  {
    var key := KeyOf(row);
    match row.side
    case Buy => table[key := BuyInto(Get(table, key), row.quantity, row.price)]
    case Sell => if Applies(table, row) then table[key := SellFrom(table[key], row.quantity)] else table
  }

  /** The portfolio table that the transaction log, replayed from an empty database, produces. */
  function Replay(rows: seq<TransactionRow>): PositionTable
  {
    if rows == [] then map[] else ApplyRow(Replay(rows[..|rows| - 1]), rows[|rows| - 1])
  }

  /** Every sell in the log was covered by the shares held when it was committed. */
  predicate Covered(rows: seq<TransactionRow>)
  {
    rows == [] || (Covered(rows[..|rows| - 1]) && Applies(Replay(rows[..|rows| - 1]), rows[|rows| - 1]))
  }

  /** AUTOINCREMENT ids, in commit order, from 1. */
  predicate NumberedFromOne(rows: seq<TransactionRow>)
  {
    forall i :: 0 <= i < |rows| ==> rows[i].id == i + 1
  }

  /** The invariant of a committed state of the database. */
  predicate Consistent(table: PositionTable, rows: seq<TransactionRow>)
  {
    NumberedFromOne(rows) && Covered(rows) && table == Replay(rows)
  }

  /** Committing a covered trade together with its log row keeps the database consistent. */
  lemma CommitKeepsConsistent(table: PositionTable, rows: seq<TransactionRow>, row: TransactionRow)
    requires Consistent(table, rows)
    requires row.id == |rows| + 1
    requires Applies(table, row)
    ensures Consistent(ApplyRow(table, row), rows + [row])
  {
    var rows' := rows + [row];
    assert rows'[..|rows'| - 1] == rows;
  }

  function Bought(rows: seq<TransactionRow>, key: PositionKey): nat
  {
    if rows == [] then 0
    else
      var last := rows[|rows| - 1];
      Bought(rows[..|rows| - 1], key) + if last.side == Buy && KeyOf(last) == key then last.quantity else 0
  }

  function Sold(rows: seq<TransactionRow>, key: PositionKey): nat
  {
    if rows == [] then 0
    else
      var last := rows[|rows| - 1];
      Sold(rows[..|rows| - 1], key) + if last.side == Sell && KeyOf(last) == key then last.quantity else 0
  }

  /**
   * In a covered log, every position holds exactly the shares bought minus the
   * shares sold, so no (user, symbol) ever sold more than it bought.
   */
  lemma {:induction false} ReplayNetsTheLog(rows: seq<TransactionRow>, key: PositionKey)
    requires Covered(rows)
    ensures HeldQuantity(Get(Replay(rows), key)) + Sold(rows, key) == Bought(rows, key)
    ensures Sold(rows, key) <= Bought(rows, key)
  {
    if rows != [] {
      ReplayNetsTheLog(rows[..|rows| - 1], key);
    }
  }

  /** The symbols in which the user holds a positive quantity. */
  function HeldSymbols(table: PositionTable, userId: int): (s: set<string>)
    ensures forall symbol :: symbol in s <==>
              PositionKey(userId, symbol) in table && table[PositionKey(userId, symbol)].quantity > 0
  {
    set k | k in table && k.userId == userId && table[k].quantity > 0 :: k.symbol
  }

  /** No symbol appears twice. */
  predicate Distinct(rows: seq<string>)
  {
    forall i, j :: 0 <= i < j < |rows| ==> rows[i] != rows[j]
  }

  /** The rows the holdings query yields: each held symbol exactly once, in some order. */
  ghost predicate HoldingsQuery(table: PositionTable, userId: int, rows: seq<string>)
  {
    && (forall s :: s in rows <==> s in HeldSymbols(table, userId))
    && Distinct(rows)
    && |rows| == |HeldSymbols(table, userId)|
  }

  /** The tables as SQLite holds them. */
  class LedgerStore {
    /** The portfolio table. */
    var positions: PositionTable
    /** The transactions table, in id order. */
    var transactions: seq<TransactionRow>

    ghost predicate Valid()
      reads this
    {
      Consistent(positions, transactions)
    }

    /** An empty database. */
    constructor ()
      ensures Valid() && positions == map[] && transactions == []
    {
      positions := map[];
      transactions := [];
    }

    /** `SELECT quantity FROM portfolio WHERE user_id = ? AND symbol = ?` */
    function QuantityHeld(userId: int, symbol: string): (r: Option<nat>)
      reads this
      ensures r.Some? <==> PositionKey(userId, symbol) in positions
      ensures r.Some? ==> r.value == positions[PositionKey(userId, symbol)].quantity
    {
      var key := PositionKey(userId, symbol);
      if key in positions then Some(positions[key].quantity) else None
    }

    /**
     * `SELECT symbol, quantity, average_price FROM portfolio WHERE user_id = ?
     * AND quantity > 0`: the symbols of the user's positive positions, each
     * once, in whatever order the database yields them.
     */
    method HeldRows(userId: int) returns (rows: seq<string>)
      ensures HoldingsQuery(positions, userId, rows)
    {
      var remaining := HeldSymbols(positions, userId);
      rows := [];
      while remaining != {}
        invariant remaining <= HeldSymbols(positions, userId)
        invariant forall s :: s in HeldSymbols(positions, userId) <==> s in rows || s in remaining
        invariant forall s :: s in rows ==> s !in remaining
        invariant Distinct(rows)
        invariant |rows| + |remaining| == |HeldSymbols(positions, userId)|
        decreases remaining
      {
        var s :| s in remaining;
        rows := rows + [s];
        remaining := remaining - {s};
      }
    }

    /** `INSERT INTO portfolio ... ON CONFLICT(user_id, symbol) DO UPDATE SET ...` */
    method UpsertBuy(userId: int, symbol: string, quantity: Shares, price: real)
      modifies this
      ensures positions == old(positions)[PositionKey(userId, symbol) :=
                             BuyInto(Get(old(positions), PositionKey(userId, symbol)), quantity, price)]
      ensures transactions == old(transactions)
    {
      var key := PositionKey(userId, symbol);
      positions := positions[key := BuyInto(Get(positions, key), quantity, price)];
    }

    /** `UPDATE portfolio SET quantity = quantity - ? WHERE user_id = ? AND symbol = ?` */
    method DecrementQuantity(userId: int, symbol: string, quantity: Shares)
      requires CanSell(positions, userId, symbol, quantity)
      modifies this
      ensures positions == old(positions)[PositionKey(userId, symbol) :=
                             SellFrom(old(positions)[PositionKey(userId, symbol)], quantity)]
      ensures transactions == old(transactions)
    {
      var key := PositionKey(userId, symbol);
      positions := positions[key := SellFrom(positions[key], quantity)];
    }

    /** `INSERT INTO transactions ...`, returning `cursor.lastrowid`. */
    method InsertTransaction(userId: int, symbol: string, quantity: Shares, price: real, side: Side)
      returns (id: nat)
      modifies this
      ensures id == |old(transactions)| + 1
      ensures transactions == old(transactions) + [TransactionRow(id, userId, symbol, quantity, price, side)]
      ensures positions == old(positions)
    {
      id := |transactions| + 1;
      transactions := transactions + [TransactionRow(id, userId, symbol, quantity, price, side)];
    }

    /** `conn.rollback()`: back to the state saved at BEGIN TRANSACTION. */
    method Rollback(savedPositions: PositionTable, savedTransactions: seq<TransactionRow>)
      modifies this
      ensures positions == savedPositions && transactions == savedTransactions
    {
      positions, transactions := savedPositions, savedTransactions;
    }

    /**
     * The `with get_db_connection()` block of a trade: BEGIN TRANSACTION, the
     * portfolio write, the log insert and COMMIT.  When the database raises at
     * any of those steps, `rollback()` leaves both tables as they were;
     * otherwise both writes are committed together.
     */
    method CommitTrade(userId: int, symbol: string, quantity: Shares, price: real, side: Side, fault: StoreFault)
      returns (id: Option<nat>)
      requires Valid()
      requires side == Sell ==> CanSell(positions, userId, symbol, quantity)
      modifies this
      ensures Valid()
      ensures fault != NoFault ==> id == None && positions == old(positions) && transactions == old(transactions)
      ensures var row := TransactionRow(|old(transactions)| + 1, userId, symbol, quantity, price, side);
              fault == NoFault ==>
                id == Some(row.id) && positions == ApplyRow(old(positions), row) && transactions == old(transactions) + [row]
    {
      var savedPositions, savedTransactions := positions, transactions;
      if fault == FailsOnPositionWrite {
        Rollback(savedPositions, savedTransactions);
        return None;
      }
      if side == Buy {
        UpsertBuy(userId, symbol, quantity, price);
      } else {
        DecrementQuantity(userId, symbol, quantity);
      }
      if fault == FailsOnTransactionInsert {
        Rollback(savedPositions, savedTransactions);
        return None;
      }
      var rowId := InsertTransaction(userId, symbol, quantity, price, side);
      if fault == FailsOnCommit {
        Rollback(savedPositions, savedTransactions);
        return None;
      }
      CommitKeepsConsistent(savedPositions, savedTransactions, TransactionRow(rowId, userId, symbol, quantity, price, side));
      return Some(rowId);
    }
  }

  /** One element of the list `get_transaction_history` returns, with its derived `total`. */
  datatype TransactionView = TransactionView(transactionId: nat, symbol: string, quantity: Shares, price: real,
                                             side: Side, total: real)

  function ViewOf(row: TransactionRow): TransactionView
  {
    TransactionView(row.id, row.symbol, row.quantity, row.price, row.side, row.price * row.quantity as real)
  }

  /**
   * `SELECT * FROM transactions WHERE user_id = ? ORDER BY timestamp DESC`
   * and the comprehension over it: the user's rows, latest commit first.
   * It holds a view of every row of the user and of no other row.
   */
  function UserHistory(rows: seq<TransactionRow>, userId: int): (h: seq<TransactionView>)
    ensures |h| <= |rows|
    ensures forall v :: v in h ==> exists row :: row in rows && row.userId == userId && v == ViewOf(row)
    ensures forall row :: row in rows && row.userId == userId ==> ViewOf(row) in h
    ensures forall v :: v in h ==> v.total == v.price * v.quantity as real
  {
    if rows == [] then []
    else
      var last := rows[|rows| - 1];
      var older := UserHistory(rows[..|rows| - 1], userId);
      assert forall row :: row in rows ==> row in rows[..|rows| - 1] || row == last;
      if last.userId == userId then [ViewOf(last)] + older else older
  }

  predicate IdsIncreasing(rows: seq<TransactionRow>)
  {
    forall i, j :: 0 <= i < j < |rows| ==> rows[i].id < rows[j].id
  }

  /** Every entry of a history comes from a row of the log, so carries an id the log bounds. */
  lemma HistoryIdsBelow(rows: seq<TransactionRow>, userId: int, bound: int)
    requires forall k :: 0 <= k < |rows| ==> rows[k].id < bound
    ensures forall v :: v in UserHistory(rows, userId) ==> v.transactionId < bound
  {
    forall v | v in UserHistory(rows, userId)
      ensures v.transactionId < bound
    {
      var row :| row in rows && row.userId == userId && v == ViewOf(row);
      var k :| 0 <= k < |rows| && rows[k] == row;
    }
  }

  predicate NewestFirst(h: seq<TransactionView>)
  {
    forall i, j :: 0 <= i < j < |h| ==> h[i].transactionId > h[j].transactionId
  }

  /** A view newer than every entry of a newest-first history goes in front of it. */
  lemma PrependNewest(v: TransactionView, older: seq<TransactionView>)
    requires NewestFirst(older)
    requires forall w :: w in older ==> w.transactionId < v.transactionId
    ensures NewestFirst([v] + older)
  {
    var h := [v] + older;
    forall i, j | 0 <= i < j < |h|
      ensures h[i].transactionId > h[j].transactionId
    {
      assert h[j] == older[j - 1];
      assert older[j - 1] in older;
      if i > 0 {
        assert h[i] == older[i - 1];
      }
    }
  }

  /** With ids in commit order, the history is newest first: its ids strictly decrease. */
  lemma {:induction false} UserHistoryNewestFirst(rows: seq<TransactionRow>, userId: int)
    requires IdsIncreasing(rows)
    ensures NewestFirst(UserHistory(rows, userId))
  {
    if rows != [] {
      var prefix := rows[..|rows| - 1];
      var last := rows[|rows| - 1];
      assert IdsIncreasing(prefix);
      UserHistoryNewestFirst(prefix, userId);
      if last.userId == userId {
        HistoryIdsBelow(prefix, userId, last.id);
        PrependNewest(ViewOf(last), UserHistory(prefix, userId));
      }
    }
  }

  /** The log of a consistent database is numbered in commit order, so its histories are newest first. */
  lemma HistoryOfNumberedLogNewestFirst(rows: seq<TransactionRow>, userId: int)
    requires NumberedFromOne(rows)
    ensures NewestFirst(UserHistory(rows, userId))
  {
    assert IdsIncreasing(rows);
    UserHistoryNewestFirst(rows, userId);
  }
}
