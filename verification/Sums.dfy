/** Sums over the values of a finite map. */
module Sums {

  ghost function Sum<K(!new)>(m: map<K, int>): int {
    if m == map[] then 0 else
      var k :| k in m;
      m[k] + Sum(m - {k})
  }

  function At<K>(m: map<K, int>, k: K): int {
    if k in m then m[k] else 0
  }

  /** The two maps agree everywhere except possibly at `k`. */
  ghost predicate SameExcept<K(!new)>(m: map<K, int>, m': map<K, int>, k: K) {
    forall j :: j != k ==> (j in m <==> j in m') && (j in m ==> m[j] == m'[j])
  }

  lemma {:induction false} SumRemove<K(!new)>(m: map<K, int>, k: K)
    requires k in m
    ensures Sum(m) == m[k] + Sum(m - {k})
    decreases m
  {
    var j :| j in m && Sum(m) == m[j] + Sum(m - {j});
    if j != k {
      SumRemove(m - {j}, k);
      SumRemove(m - {k}, j);
      assert m - {j} - {k} == m - {k} - {j};
    }
  }

  /** Changing one entry changes the sum by the difference of that entry. */
  lemma {:induction false} SumChange<K(!new)>(m: map<K, int>, m': map<K, int>, k: K)
    requires SameExcept(m, m', k)
    ensures Sum(m') == Sum(m) - At(m, k) + At(m', k)
  {
    assert m - {k} == m' - {k};
    if k in m { SumRemove(m, k); } else { assert m - {k} == m; }
    if k in m' { SumRemove(m', k); } else { assert m' - {k} == m'; }
  }

  lemma {:induction false} SumBoundsEntry<K(!new)>(m: map<K, int>, k: K)
    requires forall j :: j in m ==> 0 <= m[j]
    ensures 0 <= At(m, k) <= Sum(m)
    decreases m
  {
    if k in m {
      SumRemove(m, k);
      SumBoundsEntry(m - {k}, k);
    } else if m != map[] {
      var j :| j in m;
      SumRemove(m, j);
      SumBoundsEntry(m - {j}, k);
    }
  }
}
