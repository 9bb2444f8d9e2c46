/**
 * The arithmetic on one row of the `portfolio` table
 * (app/models/portfolio.py): the weighted-average upsert of a buy, the
 * decrement of a sell, and the valuation of a holding.  Prices are Python
 * floats in the source; here they are exact reals.
 */
module Positions {
  import opened Results

  /** A share count that has passed the `quantity <= 0` check. */
  type Shares = n: int | n > 0 witness 1

  /** A (user_id, symbol) row: shares held and their average cost. */
  datatype Position = Position(quantity: nat, averagePrice: real)

  function HeldQuantity(held: Option<Position>): nat
  {
    if held.Some? then held.value.quantity else 0
  }

  /** What the held shares cost in total: average price times quantity. */
  function CostBasis(held: Option<Position>): real
  {
    if held.Some? then held.value.averagePrice * held.value.quantity as real else 0.0
  }

  /**
   * The upsert of `buy_stock`: a new row holds (quantity, price); an existing
   * row, with every right-hand side evaluated against the old row, adds the
   * shares and re-weights the average.  The result holds the old shares plus
   * the new ones, and its cost basis is the old one plus what was paid.
   */
  function BuyInto(held: Option<Position>, quantity: Shares, price: real): (p: Position)
    ensures p.quantity == HeldQuantity(held) + quantity
    ensures p.averagePrice * p.quantity as real == CostBasis(held) + price * quantity as real
    ensures held.None? ==> p == Position(quantity, price)
  {
    match held
    case None => Position(quantity, price)
    case Some(row) =>
      Position(row.quantity + quantity,
               (row.averagePrice * row.quantity as real + price * quantity as real) / (row.quantity + quantity) as real)
  }

  /** A product with a non-zero factor determines the other factor. */
  lemma DivideOut(a: real, n: real, x: real)
    requires n != 0.0 && a * n == x
    ensures a == x / n
  {
  }

  /** The average a buy leaves is fixed by the two facts BuyInto promises. */
  lemma BuyIntoAverage(held: Option<Position>, quantity: Shares, price: real)
    ensures BuyInto(held, quantity, price).averagePrice
         == (CostBasis(held) + price * quantity as real) / (HeldQuantity(held) + quantity) as real
  {
    var p := BuyInto(held, quantity, price);
    DivideOut(p.averagePrice, p.quantity as real, CostBasis(held) + price * quantity as real);
  }

  /** A position sold down to nothing does not weigh on the next buy: its average is the new price. */
  lemma BuyIntoEmptiedPosition(average: real, quantity: Shares, price: real)
    ensures BuyInto(Some(Position(0, average)), quantity, price) == Position(quantity, price)
  {
    var p := BuyInto(Some(Position(0, average)), quantity, price);
    assert p.averagePrice * quantity as real == price * quantity as real;
  }

  /** The decrement of `sell_stock`: fewer shares, the same average. */
  function SellFrom(p: Position, quantity: Shares): (q: Position)
    requires quantity <= p.quantity
    ensures q.quantity + quantity == p.quantity
    ensures q.averagePrice == p.averagePrice
  {
    Position(p.quantity - quantity, p.averagePrice)
  }

  /** One executed buy. */
  datatype Fill = Fill(quantity: Shares, price: real)

  /** A run of buys applied to a symbol the user did not hold. */
  function BuyAll(fills: seq<Fill>): Option<Position>
  {
    if fills == [] then None
    else
      var last := fills[|fills| - 1];
      Some(BuyInto(BuyAll(fills[..|fills| - 1]), last.quantity, last.price))
  }

  function TotalShares(fills: seq<Fill>): nat
  {
    if fills == [] then 0 else TotalShares(fills[..|fills| - 1]) + fills[|fills| - 1].quantity
  }

  function TotalPaid(fills: seq<Fill>): real
  {
    if fills == [] then 0.0
    else TotalPaid(fills[..|fills| - 1]) + fills[|fills| - 1].price * fills[|fills| - 1].quantity as real
  }

  lemma {:induction false} BuyAllAccumulates(fills: seq<Fill>)
    ensures HeldQuantity(BuyAll(fills)) == TotalShares(fills)
    ensures CostBasis(BuyAll(fills)) == TotalPaid(fills)
  {
    if fills != [] {
      BuyAllAccumulates(fills[..|fills| - 1]);
    }
  }

  /**
   * After any run of buys on a fresh position, the average price is the
   * true quantity-weighted average of the executed prices.
   */
  lemma BuysYieldWeightedAverage(fills: seq<Fill>)
    requires fills != []
    ensures BuyAll(fills).Some?
    ensures BuyAll(fills).value.quantity == TotalShares(fills)
    ensures BuyAll(fills).value.averagePrice == TotalPaid(fills) / TotalShares(fills) as real
  {
    BuyAllAccumulates(fills);
    var p := BuyAll(fills).value;
    assert p.quantity == TotalShares(fills) && CostBasis(Some(p)) == TotalPaid(fills);
    DivideOut(p.averagePrice, p.quantity as real, TotalPaid(fills));
  }

  /** One entry of `holdings` in `get_portfolio`. */
  datatype Holding = Holding(symbol: string, quantity: nat, averagePrice: real, currentPrice: real,
                             totalValue: real, gainLoss: real)

  /**
   * The valuation of a held position at the latest close: its value, and its
   * unrealised gain, which is the shares times how far the close stands above
   * the average cost.
   */
  function Valuate(symbol: string, p: Position, close: real): (h: Holding)
    ensures h.symbol == symbol && h.quantity == p.quantity && h.averagePrice == p.averagePrice && h.currentPrice == close
    ensures h.totalValue == p.quantity as real * close
    ensures h.gainLoss == p.quantity as real * (close - p.averagePrice)
    ensures h.gainLoss == h.totalValue - CostBasis(Some(p))
  {
    var value := p.quantity as real * close;
    Holding(symbol, p.quantity, p.averagePrice, close, value, value - p.quantity as real * p.averagePrice)
  }

  /** `total_value`: the holding values added up from 0.0. */
  function SumValues(holdings: seq<Holding>): real
  {
    if holdings == [] then 0.0 else SumValues(holdings[..|holdings| - 1]) + holdings[|holdings| - 1].totalValue
  }

  /** Sums over a split list add up. */
  lemma {:induction false} SumValuesAppend(a: seq<Holding>, b: seq<Holding>)
    ensures SumValues(a + b) == SumValues(a) + SumValues(b)
  {
    if b == [] {
      assert a + b == a;
    } else {
      var n := |b| - 1;
      assert (a + b)[..|a + b| - 1] == a + b[..n];
      SumValuesAppend(a, b[..n]);
    }
  }

  lemma SumValuesSingle(x: Holding)
    ensures SumValues([x]) == x.totalValue
  {
    assert [x][..0] == [];
  }

  /** A list is what precedes index `k`, the holding at `k`, and what follows. */
  lemma SplitAround(b: seq<Holding>, k: nat)
    requires k < |b|
    ensures b == (b[..k] + [b[k]]) + b[k + 1..]
  {
  }

  /** Taking one holding out of a list takes its value out of the total. */
  lemma SumValuesRemove(b: seq<Holding>, k: nat)
    requires k < |b|
    ensures SumValues(b[..k] + b[k + 1..]) + b[k].totalValue == SumValues(b)
  {
    var left, x, right := b[..k], b[k], b[k + 1..];
    SplitAround(b, k);
    SumValuesAppend(left + [x], right);
    SumValuesAppend(left, [x]);
    SumValuesSingle(x);
    SumValuesAppend(left, right);
  }

  /** Taking one holding out of a list takes one copy of it out of its multiset. */
  lemma MultisetRemove(b: seq<Holding>, k: nat)
    requires k < |b|
    ensures multiset(b[..k] + b[k + 1..]) == multiset(b) - multiset{b[k]}
  {
    SplitAround(b, k);
  }

  /** `total_value` is a sum, so reordering the holdings does not change it. */
  lemma {:induction false} SumValuesPermutation(a: seq<Holding>, b: seq<Holding>)
    requires multiset(a) == multiset(b)
    ensures SumValues(a) == SumValues(b)
  {
    if a == [] {
      assert |b| == |multiset(b)| == 0;
    } else {
      var n := |a| - 1;
      var x := a[n];
      assert a == a[..n] + [x];
      assert multiset(a[..n]) == multiset(a) - multiset{x};
      assert x in multiset(b);
      var k :| 0 <= k < |b| && b[k] == x;
      SumValuesRemove(b, k);
      MultisetRemove(b, k);
      SumValuesPermutation(a[..n], b[..k] + b[k + 1..]);
    }
  }

  /** No holding appears twice. */
  predicate NoRepeats(hs: seq<Holding>)
  {
    forall i, j :: 0 <= i < j < |hs| ==> hs[i] != hs[j]
  }

  lemma {:induction false} NoRepeatsCount(hs: seq<Holding>, x: Holding)
    requires NoRepeats(hs)
    ensures multiset(hs)[x] == if x in hs then 1 else 0
  {
    if hs != [] {
      var n := |hs| - 1;
      assert hs == hs[..n] + [hs[n]];
      NoRepeatsCount(hs[..n], x);
    }
  }

  /** Two lists of distinct holdings with the same members are reorderings of each other, with one total. */
  lemma SameHoldingsSameTotal(a: seq<Holding>, b: seq<Holding>)
    requires NoRepeats(a) && NoRepeats(b)
    requires forall h :: h in a <==> h in b
    ensures multiset(a) == multiset(b)
    ensures SumValues(a) == SumValues(b)
  {
    forall x
      ensures multiset(a)[x] == multiset(b)[x]
    {
      NoRepeatsCount(a, x);
      NoRepeatsCount(b, x);
    }
    assert multiset(a) == multiset(b);
    SumValuesPermutation(a, b);
  }
}
