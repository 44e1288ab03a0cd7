/** The library sort: ascending by key, equal keys in their old order. */
module StableSort {

  function InsertBy<T>(x: T, s: seq<T>, key: T -> real): seq<T> {
    if s == [] || key(x) <= key(s[0]) then [x] + s else [s[0]] + InsertBy(x, s[1..], key)
  }

  function SortBy<T>(s: seq<T>, key: T -> real): seq<T> {
    if s == [] then [] else InsertBy(s[0], SortBy(s[1..], key), key)
  }

  ghost predicate Ascending<T>(s: seq<T>, key: T -> real) {
    forall i, j :: 0 <= i < j < |s| ==> key(s[i]) <= key(s[j])
  }

  /** The elements with one key, in order. */
  function WithKey<T>(s: seq<T>, key: T -> real, v: real): seq<T> {
    if s == [] then [] else (if key(s[0]) == v then [s[0]] else []) + WithKey(s[1..], key, v)
  }

  lemma {:induction false} InsertKeepsElements<T>(x: T, s: seq<T>, key: T -> real)
    ensures multiset(InsertBy(x, s, key)) == multiset(s) + multiset{x}
  {
    if s != [] {
      assert s == [s[0]] + s[1..];
      InsertKeepsElements(x, s[1..], key);
    }
  }

  ghost predicate AtLeast<T>(s: seq<T>, key: T -> real, low: real) {
    forall i :: 0 <= i < |s| ==> low <= key(s[i])
  }

  /** A lower bound on the keys of s and x is one on the keys of the result. */
  lemma InsertKeepsBound<T>(x: T, s: seq<T>, key: T -> real, low: real)
    requires low <= key(x) && AtLeast(s, key, low)
    ensures AtLeast(InsertBy(x, s, key), key, low)
  {
    var r := InsertBy(x, s, key);
    InsertKeepsElements(x, s, key);
    forall i | 0 <= i < |r| ensures low <= key(r[i]) {
      assert r[i] in multiset(r);
      assert r[i] in s || r[i] == x;
    }
  }

  lemma {:induction false} InsertSorts<T>(x: T, s: seq<T>, key: T -> real)
    requires Ascending(s, key)
    ensures Ascending(InsertBy(x, s, key), key)
  {
    if s != [] && key(s[0]) < key(x) {
      InsertSorts(x, s[1..], key);
      InsertKeepsBound(x, s[1..], key, key(s[0]));
      var r := InsertBy(x, s[1..], key);
      assert InsertBy(x, s, key) == [s[0]] + r;
      forall i, j | 0 <= i < j < |r| + 1 ensures key(([s[0]] + r)[i]) <= key(([s[0]] + r)[j]) {
        assert key(s[0]) <= key(r[j - 1]);
      }
    }
  }

  /** Sorting orders by key and neither loses nor invents an element. */
  lemma {:induction false} SortSorts<T>(s: seq<T>, key: T -> real)
    ensures Ascending(SortBy(s, key), key)
    ensures multiset(SortBy(s, key)) == multiset(s)
    ensures |SortBy(s, key)| == |s|
  {
    if s != [] {
      SortSorts(s[1..], key);
      InsertSorts(s[0], SortBy(s[1..], key), key);
      InsertKeepsElements(s[0], SortBy(s[1..], key), key);
      assert s == [s[0]] + s[1..];
    }
    assert |multiset(SortBy(s, key))| == |multiset(s)|;
  }

  lemma {:induction false} InsertIsStable<T>(x: T, s: seq<T>, key: T -> real, v: real)
    ensures WithKey(InsertBy(x, s, key), key, v) == WithKey([x] + s, key, v)
  {
    if s != [] && key(s[0]) < key(x) {
      InsertIsStable(x, s[1..], key, v);
      var r := InsertBy(x, s[1..], key);
      assert ([s[0]] + r)[1..] == r && ([x] + s)[1..] == s && ([x] + s[1..])[1..] == s[1..];
    }
  }

  /** Sorting keeps equal keys in their old order. */
  lemma {:induction false} SortIsStable<T>(s: seq<T>, key: T -> real, v: real)
    ensures WithKey(SortBy(s, key), key, v) == WithKey(s, key, v)
  {
    if s != [] {
      SortIsStable(s[1..], key, v);
      InsertIsStable(s[0], SortBy(s[1..], key), key, v);
      var r := SortBy(s[1..], key);
      assert ([s[0]] + r)[1..] == r;
    }
  }
}
