/**
 * Python's ordering of `str` values: code point by code point, with a proper
 * prefix ordered first.  The daily series is keyed by ISO dates, and
 * `sorted(keys)[-1]` picks the greatest key under this ordering.
 */
module StringOrder {

  /** `a <= b` on Python strings. */
  predicate LessEq(a: string, b: string)
  {
    |a| == 0 || (|b| > 0 && (a[0] < b[0] || (a[0] == b[0] && LessEq(a[1..], b[1..]))))
  }

  lemma {:induction false} LessEqReflexive(a: string)
    ensures LessEq(a, a)
  {
    if |a| > 0 {
      LessEqReflexive(a[1..]);
    }
  }

  lemma {:induction false} LessEqTotal(a: string, b: string)
    ensures LessEq(a, b) || LessEq(b, a)
  {
    if |a| > 0 && |b| > 0 && a[0] == b[0] {
      LessEqTotal(a[1..], b[1..]);
    }
  }

  lemma {:induction false} LessEqTransitive(a: string, b: string, c: string)
    requires LessEq(a, b) && LessEq(b, c)
    ensures LessEq(a, c)
  {
    if |a| > 0 && a[0] == b[0] && b[0] == c[0] {
      LessEqTransitive(a[1..], b[1..], c[1..]);
    }
  }

  lemma {:induction false} LessEqAntisymmetric(a: string, b: string)
    requires LessEq(a, b) && LessEq(b, a)
    ensures a == b
  {
    if |a| > 0 {
      LessEqAntisymmetric(a[1..], b[1..]);
      assert a == [a[0]] + a[1..] && b == [b[0]] + b[1..];
    }
  }

  /**
   * The position of the greatest key: what `sorted(keys)[-1]` selects.
   * Every key is at most the selected one.
   */
  function GreatestIndex(keys: seq<string>): (i: nat)
    requires |keys| > 0
    ensures i < |keys|
    ensures forall j :: 0 <= j < |keys| ==> LessEq(keys[j], keys[i])
  {
    if |keys| == 1 then
      LessEqReflexive(keys[0]);
      0
    else
      var last := |keys| - 1;
      var i := GreatestIndex(keys[..last]);
      assert keys[..last][i] == keys[i];
      LessEqTotal(keys[last], keys[i]);
      if LessEq(keys[last], keys[i]) then
        assert forall j :: 0 <= j < last ==> LessEq(keys[j], keys[i]) by {
          forall j | 0 <= j < last
            ensures LessEq(keys[j], keys[i])
          {
            assert keys[..last][j] == keys[j];
          }
        }
        i
      else
        assert forall j :: 0 <= j < |keys| ==> LessEq(keys[j], keys[last]) by {
          forall j | 0 <= j < |keys|
            ensures LessEq(keys[j], keys[last])
          {
            if j < last {
              assert keys[..last][j] == keys[j];
              LessEqTransitive(keys[j], keys[i], keys[last]);
            } else {
              LessEqReflexive(keys[last]);
            }
          }
        }
        last
  }

  /**
   * Among distinct keys the greatest one is unique, so the choice made by
   * GreatestIndex is the one `sorted(keys)[-1]` makes.
   */
  lemma GreatestIsUnique(keys: seq<string>, i: nat, j: nat)
    requires forall a, b :: 0 <= a < b < |keys| ==> keys[a] != keys[b]
    requires i < |keys| && j < |keys|
    requires forall k :: 0 <= k < |keys| ==> LessEq(keys[k], keys[i])
    requires forall k :: 0 <= k < |keys| ==> LessEq(keys[k], keys[j])
    ensures i == j
  {
    LessEqAntisymmetric(keys[i], keys[j]);
  }
}
