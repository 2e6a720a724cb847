// Sums over the rows of a table, the model of SQL's SUM and COUNT.
module Sums {
  ghost function SumMap<K, V>(m: map<K, V>, f: (K, V) -> int): int {
    if m.Keys == {} then 0
    else
      var k :| k in m.Keys;
      f(k, m[k]) + SumMap(m - {k}, f)
  }

  // The order in which rows are added is irrelevant.
  lemma {:induction false} SumRemove<K, V>(m: map<K, V>, f: (K, V) -> int, k: K)
    requires k in m
    ensures SumMap(m, f) == f(k, m[k]) + SumMap(m - {k}, f)
    decreases |m|
  {
    var j :| j in m.Keys && SumMap(m, f) == f(j, m[j]) + SumMap(m - {j}, f);
    if j != k {
      SumRemove(m - {j}, f, k);
      SumRemove(m - {k}, f, j);
      assert m - {j} - {k} == m - {k} - {j};
    }
  }

  lemma SumUpdate<K, V>(m: map<K, V>, f: (K, V) -> int, k: K, v: V)
    ensures SumMap(m[k := v], f) == SumMap(m, f) - (if k in m then f(k, m[k]) else 0) + f(k, v)
  {
    SumRemove(m[k := v], f, k);
    if k in m {
      SumRemove(m, f, k);
      assert m[k := v] - {k} == m - {k};
    } else {
      assert m[k := v] - {k} == m;
    }
  }

  lemma SumEmpty<K, V>(f: (K, V) -> int)
    ensures SumMap(map[], f) == 0
  {
  }

  // Row-wise comparison of two tables with the same row ids.
  lemma {:induction false} SumCompare<K, V, W>(m: map<K, V>, n: map<K, W>, f: (K, V) -> int, g: (K, W) -> int)
    requires m.Keys == n.Keys
    requires forall k | k in m :: f(k, m[k]) <= g(k, n[k])
    ensures SumMap(m, f) <= SumMap(n, g)
    decreases |m|
  {
    if m.Keys != {} {
      var k :| k in m.Keys;
      SumRemove(m, f, k);
      SumRemove(n, g, k);
      SumCompare(m - {k}, n - {k}, f, g);
    }
  }

  // A table with fewer and smaller rows sums to no more.
  lemma {:induction false} SumSubset<K, V>(m: map<K, V>, n: map<K, V>, f: (K, V) -> int)
    requires n.Keys <= m.Keys
    requires forall k | k in m :: f(k, m[k]) >= 0
    requires forall k | k in n :: f(k, n[k]) <= f(k, m[k])
    ensures SumMap(n, f) <= SumMap(m, f)
    decreases |m|
  {
    if m.Keys != {} {
      var k :| k in m.Keys;
      SumRemove(m, f, k);
      if k in n {
        SumRemove(n, f, k);
        SumSubset(m - {k}, n - {k}, f);
      } else {
        SumSubset(m - {k}, n, f);
      }
    }
  }

  lemma SumSame<K, V, W>(m: map<K, V>, n: map<K, W>, f: (K, V) -> int, g: (K, W) -> int)
    requires m.Keys == n.Keys
    requires forall k | k in m :: f(k, m[k]) == g(k, n[k])
    ensures SumMap(m, f) == SumMap(n, g)
  {
    SumCompare(m, n, f, g);
    SumCompare(n, m, g, f);
  }

  lemma {:induction false} SumNonNegative<K, V>(m: map<K, V>, f: (K, V) -> int)
    requires forall k | k in m :: f(k, m[k]) >= 0
    ensures SumMap(m, f) >= 0
    ensures forall k | k in m :: f(k, m[k]) <= SumMap(m, f)
    decreases |m|
  {
    if m.Keys != {} {
      var j :| j in m.Keys;
      SumRemove(m, f, j);
      SumNonNegative(m - {j}, f);
      forall k | k in m ensures f(k, m[k]) <= SumMap(m, f) {
        assert k == j || k in m - {j};
      }
    }
  }

  // A sum of non-negative rows is zero exactly when every row is zero.
  lemma SumZero<K, V>(m: map<K, V>, f: (K, V) -> int)
    requires forall k | k in m :: f(k, m[k]) >= 0
    ensures SumMap(m, f) == 0 <==> forall k | k in m :: f(k, m[k]) == 0
  {
    SumNonNegative(m, f);
    if forall k | k in m :: f(k, m[k]) == 0 {
      AllZero(m, f);
    }
  }

  lemma {:induction false} AllZero<K, V>(m: map<K, V>, f: (K, V) -> int)
    requires forall k | k in m :: f(k, m[k]) == 0
    ensures SumMap(m, f) == 0
    decreases |m|
  {
    if m.Keys != {} {
      var k :| k in m.Keys;
      SumRemove(m, f, k);
      AllZero(m - {k}, f);
    }
  }

  lemma {:induction false} SumAdd<K, V>(m: map<K, V>, f: (K, V) -> int, g: (K, V) -> int, h: (K, V) -> int)
    requires forall k | k in m :: h(k, m[k]) == f(k, m[k]) + g(k, m[k])
    ensures SumMap(m, h) == SumMap(m, f) + SumMap(m, g)
    decreases |m|
  {
    if m.Keys != {} {
      var k :| k in m.Keys;
      SumRemove(m, f, k);
      SumRemove(m, g, k);
      SumRemove(m, h, k);
      SumAdd(m - {k}, f, g, h);
    }
  }

  // A sum of ones counts the rows.
  lemma {:induction false} SumCounts<K, V>(m: map<K, V>, f: (K, V) -> int, ones: set<K>)
    requires ones <= m.Keys && forall k | k in m :: f(k, m[k]) == if k in ones then 1 else 0
    ensures SumMap(m, f) == |ones|
    decreases |m|
  {
    if m.Keys != {} {
      var k :| k in m.Keys;
      SumRemove(m, f, k);
      SumCounts(m - {k}, f, ones - {k});
    }
  }

  // SELECT SUM(f) over a table, visited in any order.
  method SumRows<K, V>(m: map<K, V>, f: (K, V) -> int) returns (total: int)
    ensures total == SumMap(m, f)
  {
    total := 0;
    var todo := m;
    while todo.Keys != {}
      invariant total + SumMap(todo, f) == SumMap(m, f)
      decreases todo.Keys
    {
      var k :| k in todo;
      SumRemove(todo, f, k);
      total, todo := total + f(k, todo[k]), todo - {k};
    }
  }
}
