/** Totals over finite maps. */
module Sums {

  ghost function Sum<K(!new), V>(m: map<K, V>, f: V -> int): int
    decreases |m|
  {
    if m == map[] then 0
    else
      var k :| k in m;
      f(m[k]) + Sum(m - {k}, f)
  }

  lemma {:induction false} SumWithout<K(!new), V>(m: map<K, V>, k: K, f: V -> int)
    requires k in m
    ensures Sum(m, f) == f(m[k]) + Sum(m - {k}, f)
    decreases |m|
  {
    var k0 :| k0 in m && Sum(m, f) == f(m[k0]) + Sum(m - {k0}, f);
    if k0 != k {
      SumWithout(m - {k0}, k, f);
      SumWithout(m - {k}, k0, f);
      assert (m - {k0}) - {k} == (m - {k}) - {k0};
    }
  }

  lemma SumUpdate<K(!new), V>(m: map<K, V>, k: K, v: V, f: V -> int)
    ensures Sum(m[k := v], f) == Sum(m, f) + f(v) - (if k in m then f(m[k]) else 0)
  {
    var m' := m[k := v];
    SumWithout(m', k, f);
    assert m' - {k} == m - {k};
    if k in m {
      SumWithout(m, k, f);
    } else {
      assert m - {k} == m;
    }
  }

  lemma {:induction false} SumNonNegative<K(!new), V>(m: map<K, V>, f: V -> int)
    requires forall k :: k in m ==> f(m[k]) >= 0
    ensures Sum(m, f) >= 0
    decreases |m|
  {
    if m != map[] {
      var k :| k in m;
      SumWithout(m, k, f);
      SumNonNegative(m - {k}, f);
    }
  }

  lemma {:induction false} SumZero<K(!new), V>(m: map<K, V>, f: V -> int)
    requires forall k :: k in m ==> f(m[k]) == 0
    ensures Sum(m, f) == 0
    decreases |m|
  {
    if m != map[] {
      var k :| k in m;
      SumWithout(m, k, f);
      SumZero(m - {k}, f);
    }
  }
}
