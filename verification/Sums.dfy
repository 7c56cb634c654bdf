/** Sums over finite maps, as SQL's SUM computes them: in no particular order. */
module Sums {

  ghost function Sum<K(!new)>(m: map<K, int>): int
    decreases |m|
  {
    if m == map[] then 0
    else
      var k :| k in m;
      m[k] + Sum(m - {k})
  }

  lemma {:induction false} SumSplit<K(!new)>(m: map<K, int>, k: K)
    requires k in m
    ensures Sum(m) == m[k] + Sum(m - {k})
    decreases |m|
  {
    var p :| p in m && Sum(m) == m[p] + Sum(m - {p});
    if p != k {
      SumSplit(m - {p}, k);
      SumSplit(m - {k}, p);
      assert m - {p} - {k} == m - {k} - {p};
    }
  }

  lemma SumAdd<K(!new)>(m: map<K, int>, k: K, v: int)
    requires k !in m
    ensures Sum(m[k := v]) == Sum(m) + v
  {
    SumSplit(m[k := v], k);
    assert m[k := v] - {k} == m;
  }

  /** No entry grew and those in `fallen` shrank: the sum fell by at least their number. */
  lemma {:induction false} SumFalls<K(!new)>(m: map<K, int>, m': map<K, int>, fallen: set<K>)
    requires m.Keys == m'.Keys && fallen <= m.Keys
    requires forall k | k in m :: m'[k] <= m[k]
    requires forall k | k in fallen :: m'[k] < m[k]
    ensures Sum(m') <= Sum(m) - |fallen|
    decreases |m|
  {
    if m == map[] {
      assert fallen == {} && m' == map[];
    } else {
      var k :| k in m;
      SumSplit(m, k);
      SumSplit(m', k);
      SumFalls(m - {k}, m' - {k}, fallen - {k});
      assert k in fallen ==> |fallen - {k}| == |fallen| - 1;
      assert k !in fallen ==> fallen - {k} == fallen;
    }
  }
}
