// Finite sums over maps: the arithmetic shared by the ledger totals and the
// queue's drain measure.
module Sums {

  /** The sum of the values of m, taken in any order (SumRemove). */
  ghost function SumMap<K>(m: map<K, int>): int
    decreases |m|
  {
    if m.Keys == {} then 0 else
      var k := Pick(m.Keys);
      ShrinkKeys(m, k);
      m[k] + SumMap(m - {k})
  }

  ghost function Pick<K>(s: set<K>): (k: K)
    requires s != {}
    ensures k in s
  {
    var k :| k in s;
    k
  }

  lemma ShrinkKeys<K>(m: map<K, int>, k: K)
    requires k in m
    ensures |m - {k}| < |m|
  {
    assert (m - {k}).Keys == m.Keys - {k};
  }

  /** Any key may be taken out first. */
  lemma {:induction false} SumRemove<K>(m: map<K, int>, k: K)
    requires k in m
    ensures SumMap(m) == m[k] + SumMap(m - {k})
    decreases |m|
  {
    var j := Pick(m.Keys);
    if j != k {
      ShrinkKeys(m, j);
      ShrinkKeys(m, k);
      SumRemove(m - {j}, k);
      SumRemove(m - {k}, j);
      assert m - {j} - {k} == m - {k} - {j};
    }
  }

  /** Overwriting or adding one key moves the sum by the difference. */
  lemma SumUpdate<K>(m: map<K, int>, k: K, v: int)
    ensures SumMap(m[k := v]) == SumMap(m) + v - (if k in m then m[k] else 0)
  {
    var n := m[k := v];
    SumRemove(n, k);
    if k in m {
      SumRemove(m, k);
      assert n - {k} == m - {k};
    } else {
      assert n - {k} == m;
    }
  }

  /** A sum of numbers that are not negative is not negative. */
  lemma {:induction false} SumNonNegative<K>(m: map<K, int>)
    requires forall k :: k in m ==> m[k] >= 0
    ensures SumMap(m) >= 0
    decreases |m|
  {
    if m.Keys != {} {
      var k := Pick(m.Keys);
      ShrinkKeys(m, k);
      SumNonNegative(m - {k});
    }
  }
}
