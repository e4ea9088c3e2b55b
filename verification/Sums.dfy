/** Sums of an integer weight over the values of a finite map. */
module Sums {
  ghost function Sum<K, V>(m: map<K, V>, f: V -> int): int
    decreases |m|
  {
    if m == map[] then 0
    else
      var k :| k in m;
      f(m[k]) + Sum(m - {k}, f)
  }

  // The sum does not depend on the key it peels off first.
  lemma {:induction false} SumRemove<K, V>(m: map<K, V>, k: K, f: V -> int)
    requires k in m
    ensures Sum(m, f) == f(m[k]) + Sum(m - {k}, f)
    decreases |m|
  {
    var p :| p in m && Sum(m, f) == f(m[p]) + Sum(m - {p}, f);
    if p != k {
      SumRemove(m - {p}, k, f);
      SumRemove(m - {k}, p, f);
      assert m - {p} - {k} == m - {k} - {p};
    }
  }

  lemma SumUpdate<K, V>(m: map<K, V>, k: K, v: V, f: V -> int)
    ensures k in m ==> Sum(m[k := v], f) == Sum(m, f) - f(m[k]) + f(v)
    ensures k !in m ==> Sum(m[k := v], f) == Sum(m, f) + f(v)
  {
    SumRemove(m[k := v], k, f);
    if k in m {
      SumRemove(m, k, f);
      assert m[k := v] - {k} == m - {k};
    } else {
      assert m[k := v] - {k} == m;
    }
  }

  lemma Distribute(c: int, x: int, y: int)
    ensures c * (x + y) == c * x + c * y
  {}

  lemma {:induction false} SumScaled<K, V>(m: map<K, V>, f: V -> int, g: V -> int, c: int)
    requires forall k :: k in m ==> f(m[k]) <= c * g(m[k])
    ensures Sum(m, f) <= c * Sum(m, g)
    decreases |m|
  {
    if m != map[] {
      var k :| k in m;
      var rest := m - {k};
      SumRemove(m, k, f);
      SumRemove(m, k, g);
      assert forall j :: j in rest ==> j in m && rest[j] == m[j];
      SumScaled(rest, f, g, c);
      Distribute(c, g(m[k]), Sum(rest, g));
    }
  }

  // Weights that add up pointwise add up in the sum.
  lemma {:induction false} SumAdds<K, V>(m: map<K, V>, f: V -> int, g: V -> int, h: V -> int)
    requires forall k :: k in m ==> h(m[k]) == f(m[k]) + g(m[k])
    ensures Sum(m, h) == Sum(m, f) + Sum(m, g)
    decreases |m|
  {
    if m != map[] {
      var k :| k in m;
      SumRemove(m, k, f);
      SumRemove(m, k, g);
      SumRemove(m, k, h);
      SumAdds(m - {k}, f, g, h);
    }
  }

  lemma {:induction false} SumNonNegative<K, V>(m: map<K, V>, f: V -> int)
    requires forall k :: k in m ==> f(m[k]) >= 0
    ensures Sum(m, f) >= 0
    decreases |m|
  {
    if m != map[] {
      var k :| k in m;
      SumRemove(m, k, f);
      SumNonNegative(m - {k}, f);
    }
  }

  // A weight that is nowhere negative is at most the sum.
  lemma SumAtLeast<K, V>(m: map<K, V>, k: K, f: V -> int)
    requires k in m
    requires forall j :: j in m ==> f(m[j]) >= 0
    ensures Sum(m, f) >= f(m[k])
  {
    SumRemove(m, k, f);
    SumNonNegative(m - {k}, f);
  }

  lemma {:induction false} SumZero<K, V>(m: map<K, V>, f: V -> int)
    requires forall k :: k in m ==> f(m[k]) == 0
    ensures Sum(m, f) == 0
    decreases |m|
  {
    if m != map[] {
      var k :| k in m;
      SumRemove(m, k, f);
      SumZero(m - {k}, f);
    }
  }

  ghost function Marked<K, V>(m: map<K, V>, f: V -> int): set<K> {
    set k | k in m && f(m[k]) == 1
  }

  // A weight of zero or one counts the keys it marks.
  lemma {:induction false} SumCounts<K, V>(m: map<K, V>, f: V -> int)
    requires forall k :: k in m ==> f(m[k]) == 0 || f(m[k]) == 1
    ensures Sum(m, f) == |Marked(m, f)|
    decreases |m|
  {
    var marked := Marked(m, f);
    if m == map[] {
      assert marked == {};
    } else {
      var k :| k in m;
      var rest := m - {k};
      SumRemove(m, k, f);
      SumCounts(rest, f);
      assert Marked(rest, f) == marked - {k};
    }
  }
}
