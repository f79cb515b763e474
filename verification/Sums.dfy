/** Sums over finite maps. */
module Sums {

  ghost function SumOf(m: map<string, int>): int {
    if m == map[] then 0
    else
      var k :| k in m;
      m[k] + SumOf(m - {k})
  }

  /** The sum does not depend on the order of its terms. */
  lemma {:induction false} SumTakesOut(m: map<string, int>, k: string)
    requires k in m
    ensures SumOf(m) == m[k] + SumOf(m - {k})
    decreases |m|
  {
    var j :| j in m && SumOf(m) == m[j] + SumOf(m - {j});
    if j != k {
      SumTakesOut(m - {j}, k);
      SumTakesOut(m - {k}, j);
      assert m - {j} - {k} == m - {k} - {j};
    }
  }

  lemma SumAfterUpdate(m: map<string, int>, k: string, v: int)
    ensures SumOf(m[k := v]) == SumOf(m) + v - (if k in m then m[k] else 0)
  {
    SumTakesOut(m[k := v], k);
    assert m[k := v] - {k} == m - {k};
    if k in m {
      SumTakesOut(m, k);
    } else {
      assert m - {k} == m;
    }
  }

  lemma {:induction false} SumOfZeros(m: map<string, int>)
    requires forall k :: k in m ==> m[k] == 0
    ensures SumOf(m) == 0
    decreases |m|
  {
    if m != map[] {
      var k :| k in m && SumOf(m) == m[k] + SumOf(m - {k});
      SumOfZeros(m - {k});
    }
  }
}
