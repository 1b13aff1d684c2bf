/** Sorting by a key comparison, as a stable insertion. */
module Sorting {

  /** Puts `x` behind everything that may stand before it. */
  function Insert<T>(x: T, s: seq<T>, before: (T, T) -> bool): (r: seq<T>)
    ensures multiset(r) == multiset(s) + multiset{x}
  {
    if s == [] then [x]
    else if before(s[|s| - 1], x) then s + [x]
    else
      assert s == s[..|s| - 1] + [s[|s| - 1]];
      Insert(x, s[..|s| - 1], before) + [s[|s| - 1]]
  }

  function Sort<T>(s: seq<T>, before: (T, T) -> bool): (r: seq<T>)
    ensures multiset(r) == multiset(s) && |r| == |s|
  {
    if s == [] then []
    else
      assert s == s[..|s| - 1] + [s[|s| - 1]];
      var r := Insert(s[|s| - 1], Sort(s[..|s| - 1], before), before);
      assert |r| == |multiset(r)| == |multiset(s)| == |s|;
      r
  }

  ghost predicate Ordered<T>(s: seq<T>, before: (T, T) -> bool) {
    forall i :: 0 < i < |s| ==> before(s[i - 1], s[i])
  }

  /** Any two can be ordered. */
  ghost predicate Connected<T(!new)>(before: (T, T) -> bool) {
    forall x, y :: before(x, y) || before(y, x)
  }

  lemma {:induction false} InsertOrdered<T(!new)>(x: T, s: seq<T>, before: (T, T) -> bool)
    requires Ordered(s, before) && Connected(before)
    ensures Ordered(Insert(x, s, before), before)
    ensures s != [] ==> var r := Insert(x, s, before); r[|r| - 1] == x || r[|r| - 1] == s[|s| - 1]
  {
    if s != [] && !before(s[|s| - 1], x) {
      InsertOrdered(x, s[..|s| - 1], before);
      var front := Insert(x, s[..|s| - 1], before);
      assert |front| == |multiset(front)| == |s|;
      if |s| == 1 {
        assert front == [x];
      }
    }
  }

  lemma {:induction false} SortOrdered<T(!new)>(s: seq<T>, before: (T, T) -> bool)
    requires Connected(before)
    ensures Ordered(Sort(s, before), before)
  {
    if s != [] {
      SortOrdered(s[..|s| - 1], before);
      InsertOrdered(s[|s| - 1], Sort(s[..|s| - 1], before), before);
    }
  }

  ghost predicate TransitiveIn<T(!new)>(s: seq<T>, before: (T, T) -> bool) {
    forall x, y, z :: x in s && y in s && z in s && before(x, y) && before(y, z) ==> before(x, z)
  }

  /** Every element stands before all later ones. */
  ghost predicate Sorted<T>(s: seq<T>, before: (T, T) -> bool) {
    forall i, j :: 0 <= i < j < |s| ==> before(s[i], s[j])
  }

  lemma SortSorts<T(!new)>(s: seq<T>, before: (T, T) -> bool)
    requires Connected(before) && TransitiveIn(s, before)
    ensures Sorted(Sort(s, before), before)
  {
    SortOrdered(s, before);
    var r := Sort(s, before);
    forall x | x in r ensures x in s {
      assert x in multiset(r);
    }
    forall i, j | 0 <= i < j < |r| ensures before(r[i], r[j]) {
      OrderedChain(r, before, i, j);
    }
  }

  lemma {:induction false} OrderedChain<T(!new)>(r: seq<T>, before: (T, T) -> bool, i: nat, j: nat)
    requires Ordered(r, before) && TransitiveIn(r, before) && i < j < |r|
    ensures before(r[i], r[j])
  {
    if i + 1 < j {
      OrderedChain(r, before, i, j - 1);
      assert before(r[j - 1], r[j]);
    }
  }

  /** Lexicographic order, as Python compares strings. */
  predicate StringLeq(a: string, b: string) {
    a == [] || (b != [] && (a[0] < b[0] || (a[0] == b[0] && StringLeq(a[1..], b[1..]))))
  }

  lemma {:induction false} StringLeqConnected(a: string, b: string)
    ensures StringLeq(a, b) || StringLeq(b, a)
  {
    if a != [] && b != [] && a[0] == b[0] {
      StringLeqConnected(a[1..], b[1..]);
    }
  }

  /** One string is a prefix of the other, or they differ first in a character that is smaller in it. */
  lemma {:induction false} StringLeqIff(a: string, b: string)
    ensures StringLeq(a, b) <==> a <= b || exists k :: FirstDifference(a, b, k) && a[k] < b[k]
  {
    if a != [] && b != [] {
      StringLeqIff(a[1..], b[1..]);
      if a[0] == b[0] {
        assert a <= b <==> a[1..] <= b[1..];
        if k :| FirstDifference(a, b, k) && a[k] < b[k] {
          var x, y := a[1..], b[1..];
          assert k > 0 && x[k - 1] == a[k] && y[k - 1] == b[k];
          assert FirstDifference(x, y, k - 1) && x[k - 1] < y[k - 1];
        }
        if k :| FirstDifference(a[1..], b[1..], k) && a[1..][k] < b[1..][k] {
          assert FirstDifference(a, b, k + 1) && a[k + 1] < b[k + 1];
        }
      } else {
        assert FirstDifference(a, b, 0);
      }
    }
  }

  ghost predicate FirstDifference<T>(a: seq<T>, b: seq<T>, k: int) {
    0 <= k < |a| && k < |b| && a[k] != b[k] && forall i :: 0 <= i < k ==> a[i] == b[i]
  }

  lemma {:induction false} StringLeqTransitive(a: string, b: string, c: string)
    requires StringLeq(a, b) && StringLeq(b, c)
    ensures StringLeq(a, c)
  {
    if a != [] && a[0] == b[0] == c[0] {
      StringLeqTransitive(a[1..], b[1..], c[1..]);
    }
  }

  lemma {:induction false} StringLeqAntisymmetric(a: string, b: string)
    requires StringLeq(a, b) && StringLeq(b, a)
    ensures a == b
  {
    if a != [] {
      StringLeqAntisymmetric(a[1..], b[1..]);
    }
  }
}
