/** Shared by the modules: optional results, answers of lookups, sizes and sums. */
module Common {

  datatype Option<+T> = None | Some(value: T)

  /** `found` is an answer a database may give to an unordered lookup whose matching rows are `rows`. */
  predicate IsAnswer<K(==)>(found: Option<K>, rows: set<K>) {
    if found.None? then rows == {} else found.value in rows
  }

  lemma SubsetSize<T>(a: set<T>, b: set<T>)
    requires a <= b
    ensures |a| <= |b|
  {
    if a != {} {
      var x :| x in a;
      SubsetSize(a - {x}, b - {x});
    }
  }

  /** The sum of `f(k, m[k])` over the keys of `m`. */
  ghost function MapSum<K(!new), V(!new)>(m: map<K, V>, f: (K, V) -> int): int
  {
    if m == map[] then 0
    else
      var k :| k in m;
      f(k, m[k]) + MapSum(m - {k}, f)
  }

  /** The sum does not depend on the order in which keys are taken out. */
  lemma {:induction false} MapSumRemove<K(!new), V(!new)>(m: map<K, V>, f: (K, V) -> int, k: K)
    requires k in m
    ensures MapSum(m, f) == f(k, m[k]) + MapSum(m - {k}, f)
    decreases |m|
  {
    var first :| first in m && MapSum(m, f) == f(first, m[first]) + MapSum(m - {first}, f);
    if first != k {
      MapSumRemove(m - {first}, f, k);
      MapSumRemove(m - {k}, f, first);
      assert m - {first} - {k} == m - {k} - {first};
    }
  }

  /** Overwriting one entry changes the sum by exactly that entry's change. */
  lemma MapSumUpdate<K(!new), V(!new)>(m: map<K, V>, f: (K, V) -> int, k: K, v: V)
    requires k in m
    ensures MapSum(m[k := v], f) == MapSum(m, f) - f(k, m[k]) + f(k, v)
  {
    MapSumRemove(m, f, k);
    MapSumRemove(m[k := v], f, k);
    assert m[k := v] - {k} == m - {k};
  }
}
