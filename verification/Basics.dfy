/** Option, Result and the order on strings that Python's `sorted` uses. */
module Basics {

  datatype Option<+T> = None | Some(value: T)

  datatype Result<+T, +E> = Ok(value: T) | Err(error: E)

  function Max(a: int, b: int): int {
    if a < b then b else a
  }

  function Min(a: int, b: int): int {
    if a < b then a else b
  }

  /** Lexicographic order on code points, the order in which Python compares strings. */
  predicate StringLeq(a: string, b: string) {
    a == [] || (b != [] && (a[0] < b[0] || (a[0] == b[0] && StringLeq(a[1..], b[1..]))))
  }

  lemma StringLeqTotal(a: string, b: string)
    ensures StringLeq(a, b) || StringLeq(b, a)
  {
  }

  lemma {:induction false} StringLeqTransitive(a: string, b: string, c: string)
    requires StringLeq(a, b) && StringLeq(b, c)
    ensures StringLeq(a, c)
  {
    if a != [] && a[0] == b[0] == c[0] {
      StringLeqTransitive(a[1..], b[1..], c[1..]);
    }
  }

  ghost predicate SortedStrings(s: seq<string>) {
    forall i, j :: 0 <= i < j < |s| ==> StringLeq(s[i], s[j])
  }

  ghost predicate NoDuplicates<T>(s: seq<T>) {
    forall i, j :: 0 <= i < j < |s| ==> s[i] != s[j]
  }

  ghost predicate Increasing(s: seq<nat>) {
    forall i, j :: 0 <= i < j < |s| ==> s[i] < s[j]
  }

  lemma WithoutLast(s: seq<nat>, x: nat)
    requires Increasing(s) && s != []
    ensures x in s[..|s| - 1] <==> x in s && x != s[|s| - 1]
  {
    var m := |s| - 1;
    if x in s && x != s[m] {
      var i :| 0 <= i < |s| && s[i] == x;
      assert s[..m][i] == x;
    }
  }

  lemma LastIsGreatest(s: seq<nat>, x: nat)
    requires Increasing(s) && x in s
    ensures x <= s[|s| - 1]
  {
  }

  ghost function Members(s: seq<nat>): set<nat> {
    set x | x in s
  }

  lemma SameLast(a: seq<nat>, b: seq<nat>)
    requires Increasing(a) && Increasing(b) && Members(a) == Members(b) && a != []
    ensures b != [] && a[|a| - 1] == b[|b| - 1]
  {
    assert a[|a| - 1] in Members(b);
    LastIsGreatest(b, a[|a| - 1]);
    assert b[|b| - 1] in Members(a);
    LastIsGreatest(a, b[|b| - 1]);
  }

  lemma MembersWithoutLast(s: seq<nat>)
    requires Increasing(s) && s != []
    ensures Members(s[..|s| - 1]) == Members(s) - {s[|s| - 1]} && Increasing(s[..|s| - 1])
  {
    var c, d := Members(s[..|s| - 1]), Members(s) - {s[|s| - 1]};
    forall x: nat ensures x in c <==> x in d {
      WithoutLast(s, x);
    }
  }

  lemma HasMember(s: seq<nat>)
    requires s != []
    ensures s[0] in Members(s)
  {
  }

  /** Increasing numbers are determined by which they are. */
  lemma {:induction false} SameIncreasing(a: seq<nat>, b: seq<nat>)
    requires Increasing(a) && Increasing(b) && Members(a) == Members(b)
    ensures a == b
    decreases |a|
  {
    if b != [] {
      HasMember(b);
    }
    if a != [] {
      SameLast(a, b);
      MembersWithoutLast(a);
      MembersWithoutLast(b);
      SameIncreasing(a[..|a| - 1], b[..|b| - 1]);
      assert a == a[..|a| - 1] + [a[|a| - 1]] && b == b[..|b| - 1] + [b[|b| - 1]];
    }
  }

  /** One step of a sort: puts x at its place in an already sorted sequence. */
  function InsertString(x: string, s: seq<string>): (r: seq<string>)
    ensures |r| == |s| + 1
    ensures forall y :: y in r <==> y == x || y in s
  {
    if s == [] || StringLeq(x, s[0]) then [x] + s
    else [s[0]] + InsertString(x, s[1..])
  }

  lemma {:induction false} InsertKeepsOrder(x: string, s: seq<string>)
    requires SortedStrings(s) && NoDuplicates(s) && x !in s
    ensures SortedStrings(InsertString(x, s)) && NoDuplicates(InsertString(x, s))
  {
    var r := InsertString(x, s);
    if s == [] {
    } else if StringLeq(x, s[0]) {
      forall j | 1 <= j < |r| ensures StringLeq(x, r[j]) && x != r[j] {
        assert r[j] == s[j - 1];
        if j > 1 {
          StringLeqTransitive(x, s[0], s[j - 1]);
        }
      }
    } else {
      StringLeqTotal(x, s[0]);
      InsertKeepsOrder(x, s[1..]);
      var t := InsertString(x, s[1..]);
      forall j | 0 <= j < |t| ensures StringLeq(s[0], t[j]) && s[0] != t[j] {
        assert t[j] in t;
        if t[j] != x {
          var k :| 0 <= k < |s[1..]| && s[1..][k] == t[j];
          assert s[k + 1] == t[j];
        }
      }
    }
  }
}
