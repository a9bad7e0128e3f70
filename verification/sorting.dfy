/** Sorting by a strict order. A comparator that is a strict total order on the
    elements being sorted determines the sorted result uniquely, so any correct
    sort (such as JavaScript's `Array.prototype.sort`) returns what `Sort` does. */
module Sorting {
  import opened Seqs

  /** Every earlier element strictly precedes every later one. */
  ghost predicate SortedBy<T>(s: seq<T>, lt: (T, T) -> bool) {
    forall i, j | 0 <= i < j < |s| :: lt(s[i], s[j])
  }

  /** `lt` is a strict total order on the elements of `s`. */
  ghost predicate StrictTotalOn<T>(s: seq<T>, lt: (T, T) -> bool) {
    && (forall x | x in s :: !lt(x, x))
    && (forall x, y | x in s && y in s && lt(x, y) :: !lt(y, x))
    && (forall x, y, z | x in s && y in s && z in s && lt(x, y) && lt(y, z) :: lt(x, z))
    && (forall x, y | x in s && y in s && x != y :: lt(x, y) || lt(y, x))
  }

  /** Places `x` before the first element it precedes. */
  function Insert<T>(x: T, s: seq<T>, lt: (T, T) -> bool): (r: seq<T>)
    ensures multiset(r) == multiset(s) + multiset{x}
    ensures |r| == |s| + 1
  {
    if s == [] then [x]
    else if lt(x, s[0]) then [x] + s
    else
      assert s == [s[0]] + s[1..];
      [s[0]] + Insert(x, s[1..], lt)
  }

  /** Insertion sort. */
  function Sort<T>(s: seq<T>, lt: (T, T) -> bool): (r: seq<T>)
    ensures multiset(r) == multiset(s)
    ensures |r| == |s|
  {
    if s == [] then []
    else
      assert s == [s[0]] + s[1..];
      Insert(s[0], Sort(s[1..], lt), lt)
  }

  lemma StrictTotalOnSub<T>(s: seq<T>, t: seq<T>, lt: (T, T) -> bool)
    requires StrictTotalOn(s, lt)
    requires forall x | x in t :: x in s
    ensures StrictTotalOn(t, lt)
  {
  }

  lemma {:induction false} InsertSorted<T>(x: T, s: seq<T>, lt: (T, T) -> bool)
    requires SortedBy(s, lt)
    requires StrictTotalOn(s + [x], lt)
    requires x !in s
    ensures SortedBy(Insert(x, s, lt), lt)
  {
    if s != [] {
      if !lt(x, s[0]) {
        assert x in s + [x] && s[0] in s + [x];
        assert lt(s[0], x);
        var tail := s[1..];
        StrictTotalOnSub(s + [x], tail + [x], lt);
        InsertSorted(x, tail, lt);
        var r := Insert(x, tail, lt);
        assert forall y | y in multiset(r) :: y == x || y in tail;
        forall y | y in r
          ensures lt(s[0], y)
        {
          assert y in multiset(r);
        }
      } else {
        forall j | 0 < j < |s| + 1
          ensures lt(x, ([x] + s)[j])
        {
          assert s[j - 1] in s + [x];
          if j > 1 {
            assert lt(s[0], s[j - 1]);
          }
        }
      }
    }
  }

  /** Sorting with a strict total order yields a strictly sorted sequence. */
  lemma {:induction false} SortSorted<T>(s: seq<T>, lt: (T, T) -> bool)
    requires StrictTotalOn(s, lt)
    requires Distinct(s)
    ensures SortedBy(Sort(s, lt), lt)
  {
    if s != [] {
      var tail := s[1..];
      StrictTotalOnSub(s, tail, lt);
      SortSorted(tail, lt);
      var st := Sort(tail, lt);
      assert multiset(st) == multiset(tail);
      assert s[0] !in tail;
      assert s[0] !in multiset(st);
      forall y | y in st + [s[0]]
        ensures y in s
      {
        if y in st {
          assert y in multiset(tail);
        }
      }
      StrictTotalOnSub(s, st + [s[0]], lt);
      InsertSorted(s[0], st, lt);
    }
  }

  /** Two strictly sorted arrangements of the same elements are equal: the
      sorted result does not depend on how the sort proceeds. */
  lemma {:induction false} SortedUnique<T>(a: seq<T>, b: seq<T>, lt: (T, T) -> bool)
    requires SortedBy(a, lt) && SortedBy(b, lt)
    requires multiset(a) == multiset(b)
    requires StrictTotalOn(a, lt)
    ensures a == b
  {
    if a != [] {
      assert a[0] in multiset(b);
      assert b != [];
      assert b[0] in multiset(a);
      assert a[0] == b[0];
      assert a == [a[0]] + a[1..] && b == [b[0]] + b[1..];
      assert multiset(a) == multiset{a[0]} + multiset(a[1..]);
      assert multiset(b) == multiset{b[0]} + multiset(b[1..]);
      assert multiset(a[1..]) == multiset(a) - multiset{a[0]};
      assert multiset(b[1..]) == multiset(b) - multiset{b[0]};
      StrictTotalOnSub(a, a[1..], lt);
      SortedUnique(a[1..], b[1..], lt);
    }
  }

  /** A filter of a sorted sequence is sorted. */
  lemma {:induction false} FilterSorted<T>(s: seq<T>, p: T -> bool, lt: (T, T) -> bool)
    requires SortedBy(s, lt)
    ensures SortedBy(Filter(s, p), lt)
  {
    if s != [] {
      FilterSorted(s[1..], p, lt);
      var rest := Filter(s[1..], p);
      forall y | y in rest
        ensures lt(s[0], y)
      {
        var k :| 0 <= k < |s[1..]| && s[1..][k] == y;
        assert s[k + 1] == y;
      }
    }
  }
}
