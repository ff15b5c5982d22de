/** Sums of a natural-number weight over the elements of a multiset, and over
    the values of a map.  The element picked first does not matter: that is what
    the lemmas say. */
module Sums {

  ghost function Sum<T>(f: T -> nat, m: multiset<T>): nat
    decreases |m|
  {
    if m == multiset{} then 0 else
      var x :| x in m;
      f(x) + Sum(f, m - multiset{x})
  }

  lemma {:induction false} SumRemove<T>(f: T -> nat, m: multiset<T>, x: T)
    requires x in m
    ensures Sum(f, m) == f(x) + Sum(f, m - multiset{x})
    decreases |m|
  {
    var y :| y in m && Sum(f, m) == f(y) + Sum(f, m - multiset{y});
    if y != x {
      SumRemove(f, m - multiset{y}, x);
      SumRemove(f, m - multiset{x}, y);
      assert m - multiset{y} - multiset{x} == m - multiset{x} - multiset{y};
    }
  }

  lemma SumAdd<T>(f: T -> nat, m: multiset<T>, x: T)
    ensures Sum(f, m + multiset{x}) == f(x) + Sum(f, m)
  {
    SumRemove(f, m + multiset{x}, x);
    assert m + multiset{x} - multiset{x} == m;
  }

  lemma {:induction false} SumZero<T>(f: T -> nat, m: multiset<T>)
    requires forall x :: x in m ==> f(x) == 0
    ensures Sum(f, m) == 0
    decreases |m|
  {
    if m != multiset{} {
      var x :| x in m;
      SumRemove(f, m, x);
      SumZero(f, m - multiset{x});
    }
  }

  ghost function SumMap<K, V>(f: V -> nat, m: map<K, V>): nat
    decreases |m|
  {
    if m == map[] then 0 else
      var k :| k in m;
      f(m[k]) + SumMap(f, m - {k})
  }

  lemma {:induction false} SumMapRemove<K, V>(f: V -> nat, m: map<K, V>, k: K)
    requires k in m
    ensures SumMap(f, m) == f(m[k]) + SumMap(f, m - {k})
    decreases |m|
  {
    var j :| j in m && SumMap(f, m) == f(m[j]) + SumMap(f, m - {j});
    if j != k {
      SumMapRemove(f, m - {j}, k);
      SumMapRemove(f, m - {k}, j);
      assert m - {j} - {k} == m - {k} - {j};
    }
  }

  /** Writing one entry replaces that entry's contribution and no other. */
  lemma SumMapUpdate<K, V>(f: V -> nat, m: map<K, V>, k: K, v: V)
    ensures SumMap(f, m[k := v]) + (if k in m then f(m[k]) else 0) == SumMap(f, m) + f(v)
  {
    SumMapRemove(f, m[k := v], k);
    assert m[k := v] - {k} == m - {k};
    if k in m {
      SumMapRemove(f, m, k);
    } else {
      assert m - {k} == m;
    }
  }

  lemma HeadIsRemoved<T>(s: seq<T>)
    requires s != []
    ensures s[0] in multiset(s)
    ensures multiset(s[1..]) == multiset(s) - multiset{s[0]}
  {
    assert s == [s[0]] + s[1..];
  }

  lemma UnionRemoveRight<T>(a: multiset<T>, b: multiset<T>, x: T)
    requires x in b
    ensures a + (b - multiset{x}) == a + b - multiset{x}
    ensures b - multiset{x} + a == b + a - multiset{x}
  {
  }

  lemma BothLack<T>(a: multiset<T>, b: multiset<T>, whole: multiset<T>, x: T)
    requires x in b && x in whole && a + (b - multiset{x}) == whole - multiset{x}
    ensures a + b == whole
  {
    UnionRemoveRight(a, b, x);
    assert a + b == a + b - multiset{x} + multiset{x};
    assert whole == whole - multiset{x} + multiset{x};
  }
}
