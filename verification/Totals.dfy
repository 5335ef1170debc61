/** Sums over finite maps: what a counter must equal. */
module Totals {

  ghost function Total<K>(m: map<K, int>): int
  {
    if m == map[] then 0 else var k :| k in m; m[k] + Total(m - {k})
  }

  lemma {:induction false} TotalRemove<K>(m: map<K, int>, k: K)
    requires k in m
    ensures Total(m) == m[k] + Total(m - {k})
    decreases |m|
  {
    var p :| p in m && Total(m) == m[p] + Total(m - {p});
    if p != k {
      TotalRemove(m - {p}, k);
      TotalRemove(m - {k}, p);
      assert m - {p} - {k} == m - {k} - {p};
    }
  }

  lemma TotalPut<K>(m: map<K, int>, k: K, v: int)
    ensures Total(m[k := v]) == Total(m) - (if k in m then m[k] else 0) + v
  {
    TotalRemove(m[k := v], k);
    assert m[k := v] - {k} == m - {k};
    if k in m {
      TotalRemove(m, k);
    } else {
      assert m - {k} == m;
    }
  }

  lemma {:induction false} TotalNonneg<K>(m: map<K, int>)
    requires forall k :: k in m ==> m[k] >= 0
    ensures Total(m) >= 0
    decreases |m|
  {
    if m != map[] {
      var k :| k in m;
      TotalRemove(m, k);
      TotalNonneg(m - {k});
    }
  }

  lemma {:induction false} TotalSum<K>(a: map<K, int>, b: map<K, int>, c: map<K, int>)
    requires a.Keys == b.Keys == c.Keys
    requires forall k :: k in a ==> c[k] == a[k] + b[k]
    ensures Total(c) == Total(a) + Total(b)
    decreases |a|
  {
    if a == map[] {
      assert b == map[] && c == map[];
    } else {
      var k :| k in a;
      TotalRemove(a, k);
      TotalRemove(b, k);
      TotalRemove(c, k);
      TotalSum(a - {k}, b - {k}, c - {k});
    }
  }

  ghost predicate Splits<K>(m: map<K, int>, inside: map<K, int>, outside: map<K, int>) {
    && (forall k :: k in m ==> k in inside || k in outside)
    && (forall k :: k in inside ==> k !in outside && k in m && m[k] == inside[k])
    && (forall k :: k in outside ==> k in m && m[k] == outside[k])
  }

  /** A map splits into the part inside a set of keys and the part outside it. */
  lemma {:induction false} TotalSplit<K>(m: map<K, int>, inside: map<K, int>, outside: map<K, int>)
    requires Splits(m, inside, outside)
    ensures Total(m) == Total(inside) + Total(outside)
    decreases |inside|
  {
    if inside == map[] {
      assert m == outside;
    } else {
      var k :| k in inside;
      TotalRemove(inside, k);
      TotalRemove(m, k);
      TotalSplit(m - {k}, inside - {k}, outside);
    }
  }

  /** Members that weigh at least one are at most as many as the total weight. */
  lemma {:induction false} CountBound<K>(s: set<K>, m: map<K, int>)
    requires forall k :: k in m ==> m[k] >= 0
    requires forall k :: k in s ==> k in m && m[k] >= 1
    ensures |s| <= Total(m)
    decreases |s|
  {
    if s == {} {
      TotalNonneg(m);
    } else {
      var k :| k in s;
      TotalRemove(m, k);
      CountBound(s - {k}, m - {k});
    }
  }

  /** Weights of zero and one add up to the number of ones. */
  lemma {:induction false} TotalCounts<K>(m: map<K, int>, s: set<K>)
    requires forall k :: k in s ==> k in m
    requires forall k :: k in m ==> m[k] == if k in s then 1 else 0
    ensures Total(m) == |s|
    decreases |m|
  {
    if m == map[] {
      assert s == {};
    } else {
      var k :| k in m;
      TotalRemove(m, k);
      TotalCounts(m - {k}, s - {k});
    }
  }

  lemma {:induction false} SubsetSize<T>(a: set<T>, b: set<T>)
    requires a <= b
    ensures |a| <= |b|
    decreases |a|
  {
    if a != {} {
      var x :| x in a;
      SubsetSize(a - {x}, b - {x});
    }
  }
}
