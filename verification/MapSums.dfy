/** Sums over the values of a map. */
module MapSums {

  ghost function SumOf<K(!new)>(m: map<K, nat>): nat
    decreases |m|
  {
    if m == map[] then 0 else
      var k :| k in m;
      m[k] + SumOf(m - {k})
  }

  /** The sum does not depend on which entry is taken first. */
  lemma {:induction false} SumRemove<K(!new)>(m: map<K, nat>, k: K)
    requires k in m
    ensures SumOf(m) == m[k] + SumOf(m - {k})
    decreases |m|
  {
    var first :| first in m && SumOf(m) == m[first] + SumOf(m - {first});
    if first != k {
      SumRemove(m - {first}, k);
      SumRemove(m - {k}, first);
      assert m - {first} - {k} == m - {k} - {first};
    }
  }

  lemma SumUpdate<K(!new)>(m: map<K, nat>, k: K, v: nat)
    ensures SumOf(m[k := v]) == v + SumOf(m - {k})
    ensures SumOf(m[k := v]) == SumOf(m) + v - (if k in m then m[k] else 0)
  {
    SumRemove(m[k := v], k);
    assert m[k := v] - {k} == m - {k};
    if k in m { SumRemove(m, k); } else { assert m - {k} == m; }
  }

  lemma SumPart<K(!new)>(m: map<K, nat>, k: K)
    requires k in m
    ensures m[k] <= SumOf(m)
  {
    SumRemove(m, k);
  }
}
