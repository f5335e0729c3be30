/** Sums over finite maps and sequences: the arithmetic behind every conservation claim. */
module Totals {

  /** The sum of `w(k, m[k])` over the keys of `m`. */
  ghost function Total<K(!new), V(!new)>(m: map<K, V>, w: (K, V) -> int): int
  {
    if m == map[] then 0
    else
      var k :| k in m;
      w(k, m[k]) + Total(m - {k}, w)
  }

  /** The order in which keys are taken out does not matter. */
  lemma {:induction false} TotalRemove<K(!new), V(!new)>(m: map<K, V>, w: (K, V) -> int, k: K)
    requires k in m
    ensures Total(m, w) == w(k, m[k]) + Total(m - {k}, w)
    decreases |m|
  {
    var j :| j in m && Total(m, w) == w(j, m[j]) + Total(m - {j}, w);
    if j != k {
      TotalRemove(m - {j}, w, k);
      TotalRemove(m - {k}, w, j);
      assert m - {j} - {k} == m - {k} - {j};
    }
  }

  /** Writing one key changes the total by the difference of the two weights. */
  lemma TotalUpdate<K(!new), V(!new)>(m: map<K, V>, w: (K, V) -> int, k: K, v: V)
    ensures Total(m[k := v], w) == Total(m, w) + w(k, v) - (if k in m then w(k, m[k]) else 0)
  {
    TotalRemove(m[k := v], w, k);
    assert m[k := v] - {k} == m - {k};
    if k in m {
      TotalRemove(m, w, k);
    } else {
      assert m - {k} == m;
    }
  }

  /** A total of non-negative weights is at least each one of them. */
  lemma {:induction false} TotalBounds<K(!new), V(!new)>(m: map<K, V>, w: (K, V) -> int)
    requires forall k | k in m :: w(k, m[k]) >= 0
    ensures Total(m, w) >= 0
    ensures forall k | k in m :: w(k, m[k]) <= Total(m, w)
    decreases |m|
  {
    if m != map[] {
      var k :| k in m && Total(m, w) == w(k, m[k]) + Total(m - {k}, w);
      TotalBounds(m - {k}, w);
      forall j | j in m ensures w(j, m[j]) <= Total(m, w) {
        assert j == k || j in m - {k};
      }
    }
  }

  /** Pointwise smaller weights have the smaller total. */
  lemma {:induction false} TotalMonotone<K(!new), V(!new)>(m: map<K, V>, v: (K, V) -> int, w: (K, V) -> int)
    requires forall k | k in m :: v(k, m[k]) <= w(k, m[k])
    ensures Total(m, v) <= Total(m, w)
    decreases |m|
  {
    if m != map[] {
      var k :| k in m && Total(m, v) == v(k, m[k]) + Total(m - {k}, v);
      TotalRemove(m, w, k);
      TotalMonotone(m - {k}, v, w);
    }
  }

  lemma TotalEqual<K(!new), V(!new)>(m: map<K, V>, v: (K, V) -> int, w: (K, V) -> int)
    requires forall k | k in m :: v(k, m[k]) == w(k, m[k])
    ensures Total(m, v) == Total(m, w)
  {
    TotalMonotone(m, v, w);
    TotalMonotone(m, w, v);
  }

  /** The sum of `w(x)` over the elements of a sequence. */
  ghost function Sum<T(!new)>(s: seq<T>, w: T -> int): int
  {
    if s == [] then 0 else Sum(s[..|s| - 1], w) + w(s[|s| - 1])
  }

  lemma SumSnoc<T(!new)>(s: seq<T>, x: T, w: T -> int)
    ensures Sum(s + [x], w) == Sum(s, w) + w(x)
  {
    assert (s + [x])[..|s|] == s;
  }
}
