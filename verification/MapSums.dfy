/** Weighted sums over finite maps: the arithmetic behind every conservation law of the project. */
module MapSums {

  ghost function Sum<K(!new), V(!new)>(m: map<K, V>, w: (K, V) -> nat): nat
    decreases |m|
  {
    if m == map[] then 0
    else
      var k :| k in m;
      assert (m - {k}).Keys == m.Keys - {k};
      w(k, m[k]) + Sum(m - {k}, w)
  }

  /** The weight of what `m` stores under `k`, zero when there is nothing. */
  ghost function At<K(!new), V(!new)>(m: map<K, V>, w: (K, V) -> nat, k: K): nat {
    if k in m then w(k, m[k]) else 0
  }

  /** The sum does not depend on the order in which keys are picked: any key can be split off. */
  lemma {:induction false} SumSplit<K(!new), V(!new)>(m: map<K, V>, w: (K, V) -> nat, k: K)
    ensures Sum(m, w) == At(m, w, k) + Sum(m - {k}, w)
    decreases |m|
  {
    if k !in m {
      assert m - {k} == m;
    } else {
      var first :| first in m && Sum(m, w) == w(first, m[first]) + Sum(m - {first}, w);
      if first != k {
        assert (m - {first}).Keys == m.Keys - {first};
        assert (m - {k}).Keys == m.Keys - {k};
        SumSplit(m - {first}, w, k);
        SumSplit(m - {k}, w, first);
        assert m - {first} - {k} == m - {k} - {first};
      }
    }
  }

  lemma SumPut<K(!new), V(!new)>(m: map<K, V>, w: (K, V) -> nat, k: K, v: V)
    ensures Sum(m[k := v], w) == Sum(m, w) - At(m, w, k) + w(k, v)
  {
    SumSplit(m, w, k);
    SumSplit(m[k := v], w, k);
    assert m[k := v] - {k} == m - {k};
  }

  lemma SumRemove<K(!new), V(!new)>(m: map<K, V>, w: (K, V) -> nat, k: K)
    ensures Sum(m - {k}, w) == Sum(m, w) - At(m, w, k)
  {
    SumSplit(m, w, k);
  }

  lemma SumBoundsPair<K(!new), V(!new)>(m: map<K, V>, w: (K, V) -> nat, j: K, k: K)
    requires j != k
    ensures At(m, w, j) + At(m, w, k) <= Sum(m, w)
  {
  }
}
