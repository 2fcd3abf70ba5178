/** Finite sums over sets and over the values of a map. */
module Sums {

  ghost function Sum<K>(s: set<K>, f: K -> int): int {
    if s == {} then 0 else var k :| k in s; f(k) + Sum(s - {k}, f)
  }

  /** The sum may be peeled at any element, not just the chosen one. */
  lemma {:induction false} SumRemove<K>(s: set<K>, k: K, f: K -> int)
    requires k in s
    ensures Sum(s, f) == f(k) + Sum(s - {k}, f)
  {
    var j :| j in s && Sum(s, f) == f(j) + Sum(s - {j}, f);
    if j != k {
      SumRemove(s - {j}, k, f);
      SumRemove(s - {k}, j, f);
      assert s - {j} - {k} == s - {k} - {j};
    }
  }

  lemma {:induction false} SumAgree<K>(s: set<K>, f: K -> int, g: K -> int)
    requires forall k | k in s :: f(k) == g(k)
    ensures Sum(s, f) == Sum(s, g)
  {
    if s != {} {
      var k :| k in s;
      SumRemove(s, k, f);
      SumRemove(s, k, g);
      SumAgree(s - {k}, f, g);
    }
  }

  lemma {:induction false} SumAtMost<K>(s: set<K>, f: K -> int, g: K -> int)
    requires forall k | k in s :: f(k) <= g(k)
    ensures Sum(s, f) <= Sum(s, g)
  {
    if s != {} {
      var k :| k in s;
      SumRemove(s, k, f);
      SumRemove(s, k, g);
      SumAtMost(s - {k}, f, g);
    }
  }

  lemma {:induction false} SumPlus<K>(s: set<K>, f: K -> int, g: K -> int, h: K -> int)
    requires forall k | k in s :: h(k) == f(k) + g(k)
    ensures Sum(s, h) == Sum(s, f) + Sum(s, g)
  {
    if s != {} {
      var k :| k in s;
      SumRemove(s, k, f);
      SumRemove(s, k, g);
      SumRemove(s, k, h);
      SumPlus(s - {k}, f, g, h);
    }
  }

  lemma {:induction false} SumNonNegative<K>(s: set<K>, f: K -> int)
    requires forall k | k in s :: 0 <= f(k)
    ensures 0 <= Sum(s, f)
  {
    if s != {} {
      var k :| k in s;
      SumRemove(s, k, f);
      SumNonNegative(s - {k}, f);
    }
  }

  lemma {:induction false} SumZero<K>(s: set<K>, f: K -> int)
    requires forall k | k in s :: f(k) == 0
    ensures Sum(s, f) == 0
  {
    if s != {} {
      var k :| k in s;
      SumRemove(s, k, f);
      SumZero(s - {k}, f);
    }
  }

  /** Summing over a subset is at most summing over the whole. */
  lemma {:induction false} SumSubset<K>(s: set<K>, t: set<K>, f: K -> int)
    requires s <= t && forall k | k in t :: 0 <= f(k)
    ensures Sum(s, f) <= Sum(t, f)
  {
    if s == {} {
      SumNonNegative(t, f);
    } else {
      var k :| k in s;
      SumRemove(s, k, f);
      SumRemove(t, k, f);
      SumSubset(s - {k}, t - {k}, f);
    }
  }

  /** The value at each key of a map, as a function on keys. */
  function At<K, V>(m: map<K, V>, w: V -> int): K -> int {
    k => if k in m then w(m[k]) else 0
  }

  ghost function Total<K, V>(m: map<K, V>, w: V -> int): int {
    Sum(m.Keys, At(m, w))
  }

  /** Writing one key changes the total by exactly that key's weight. */
  lemma TotalPut<K, V>(m: map<K, V>, k: K, v: V, w: V -> int)
    ensures Total(m[k := v], w) == Total(m, w) - (if k in m then w(m[k]) else 0) + w(v)
  {
    var n := m[k := v];
    SumRemove(n.Keys, k, At(n, w));
    assert n.Keys - {k} == m.Keys - {k};
    SumAgree(m.Keys - {k}, At(n, w), At(m, w));
    if k in m {
      SumRemove(m.Keys, k, At(m, w));
    } else {
      assert m.Keys - {k} == m.Keys;
    }
  }

  lemma TotalAtLeast<K, V>(m: map<K, V>, k: K, w: V -> int)
    requires k in m && forall j | j in m :: 0 <= w(m[j])
    ensures w(m[k]) <= Total(m, w)
  {
    SumRemove(m.Keys, k, At(m, w));
    SumNonNegative(m.Keys - {k}, At(m, w));
  }

  lemma TotalNonNegative<K, V>(m: map<K, V>, w: V -> int)
    requires forall j | j in m :: 0 <= w(m[j])
    ensures 0 <= Total(m, w)
  {
    SumNonNegative(m.Keys, At(m, w));
  }
}
