/** The orders the queries sort by. */
module Ordering {
  import opened Wrappers

  /** Lexicographic order on ids, strict. */
  predicate Less(a: string, b: string) {
    if b == [] then false
    else if a == [] then true
    else a[0] < b[0] || (a[0] == b[0] && Less(a[1..], b[1..]))
  }

  lemma {:induction false} LessTotal(a: string, b: string)
    ensures Less(a, b) || a == b || Less(b, a)
  {
    if a != [] && b != [] && a[0] == b[0] {
      LessTotal(a[1..], b[1..]);
      assert a == [a[0]] + a[1..] && b == [b[0]] + b[1..];
    }
  }

  lemma {:induction false} LessIrreflexive(a: string)
    ensures !Less(a, a)
  {
    if a != [] {
      LessIrreflexive(a[1..]);
    }
  }

  lemma {:induction false} LessTransitive(a: string, b: string, c: string)
    requires Less(a, b) && Less(b, c)
    ensures Less(a, c)
  {
    if a != [] && a[0] == b[0] == c[0] {
      LessTransitive(a[1..], b[1..], c[1..]);
    }
  }

  // ---- Sorted lists ------------------------------------------------------------------------------

  ghost predicate StrictOrder<T(!new)>(before: (T, T) -> bool) {
    && (forall a :: !before(a, a))
    && (forall a, b, c :: before(a, b) && before(b, c) ==> before(a, c))
  }

  ghost predicate Sorted<T>(before: (T, T) -> bool, s: seq<T>) {
    forall i, j :: 0 <= i < j < |s| ==> before(s[i], s[j])
  }

  /** A list in strict order is determined by its elements. */
  lemma {:induction false} SortedUnique<T(!new)>(before: (T, T) -> bool, s: seq<T>, t: seq<T>)
    requires StrictOrder(before) && Sorted(before, s) && Sorted(before, t)
    requires forall x :: x in s <==> x in t
    ensures s == t
  {
    assert s != [] ==> s[0] in t;
    assert t != [] ==> t[0] in s;
    if s != [] {
      FirstIsLeast(before, s, t[0]);
      FirstIsLeast(before, t, s[0]);
      SortedTail(before, s);
      SortedTail(before, t);
      SortedUnique(before, s[1..], t[1..]);
    }
  }

  lemma FirstIsLeast<T>(before: (T, T) -> bool, s: seq<T>, x: T)
    requires Sorted(before, s) && x in s
    ensures x == s[0] || before(s[0], x)
  {
  }

  lemma SortedTail<T(!new)>(before: (T, T) -> bool, s: seq<T>)
    requires StrictOrder(before) && Sorted(before, s) && s != []
    ensures Sorted(before, s[1..])
    ensures forall x :: x in s[1..] <==> x in s && x != s[0]
  {
  }

  // ---- Sorting ---------------------------------------------------------------------------------------

  function InsertBy<T>(before: (T, T) -> bool, x: T, s: seq<T>): seq<T> {
    if s == [] || before(x, s[0]) then [x] + s else [s[0]] + InsertBy(before, x, s[1..])
  }

  function SortBy<T>(before: (T, T) -> bool, s: seq<T>): seq<T> {
    if s == [] then [] else InsertBy(before, s[0], SortBy(before, s[1..]))
  }

  ghost predicate Comparable<T>(before: (T, T) -> bool, s: seq<T>) {
    forall i, j :: 0 <= i < j < |s| ==> before(s[i], s[j]) || before(s[j], s[i])
  }

  lemma SortedCons<T>(before: (T, T) -> bool, x: T, s: seq<T>)
    requires Sorted(before, s) && forall y :: y in s ==> before(x, y)
    ensures Sorted(before, [x] + s)
  {
  }

  lemma {:induction false} InsertBySorted<T(!new)>(before: (T, T) -> bool, x: T, s: seq<T>)
    requires StrictOrder(before) && Sorted(before, s)
    requires forall y :: y in s ==> before(x, y) || before(y, x)
    ensures Sorted(before, InsertBy(before, x, s)) && |InsertBy(before, x, s)| == |s| + 1
    ensures forall y :: y in InsertBy(before, x, s) <==> y == x || y in s
  {
    if s != [] && !before(x, s[0]) {
      SortedTail(before, s);
      InsertBySorted(before, x, s[1..]);
      assert s[0] in s;
      SortedCons(before, s[0], InsertBy(before, x, s[1..]));
    } else if s != [] {
      forall y | y in s
        ensures before(x, y)
      {
        FirstIsLeast(before, s, y);
      }
      SortedCons(before, x, s);
    }
  }

  /** Sorting elements that are pairwise in order one way or the other gives the one sorted list of them. */
  lemma {:induction false} SortBySorted<T(!new)>(before: (T, T) -> bool, s: seq<T>)
    requires StrictOrder(before) && Comparable(before, s)
    ensures Sorted(before, SortBy(before, s)) && |SortBy(before, s)| == |s|
    ensures forall y :: y in SortBy(before, s) <==> y in s
  {
    if s != [] {
      SortBySorted(before, s[1..]);
      forall y | y in s[1..]
        ensures before(s[0], y) || before(y, s[0])
      {
        var i :| 0 <= i < |s[1..]| && s[1..][i] == y;
        assert s[i + 1] == y;
      }
      InsertBySorted(before, s[0], SortBy(before, s[1..]));
    }
  }
}
