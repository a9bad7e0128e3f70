/** Order-preserving filters, counts, histograms and map sums over sequences. */
module Seqs {
  import opened Wrappers

  /** The elements of `s` that satisfy `p`, in their original order
      (JavaScript's `Array.prototype.filter`). */
  function Filter<T>(s: seq<T>, p: T -> bool): (r: seq<T>)
    ensures |r| <= |s|
    ensures forall x | x in r :: x in s && p(x)
    ensures forall i | 0 <= i < |s| && p(s[i]) :: s[i] in r
  {
    if s == [] then [] else (if p(s[0]) then [s[0]] else []) + Filter(s[1..], p)
  }

  /** `idx` lists, in increasing order, positions of `s` that spell out `r`. */
  ghost predicate PicksFrom<T>(r: seq<T>, s: seq<T>, idx: seq<nat>) {
    && |idx| == |r|
    && (forall k | 0 <= k < |idx| :: idx[k] < |s| && s[idx[k]] == r[k])
    && (forall j, k | 0 <= j < k < |idx| :: idx[j] < idx[k])
  }

  /** `r` is `s` with some elements deleted and the rest left in order. */
  ghost predicate SubsequenceOf<T>(r: seq<T>, s: seq<T>) {
    exists idx :: PicksFrom(r, s, idx)
  }

  /** Every position moved one place to the right. */
  function Shift(idx: seq<nat>): (r: seq<nat>)
    ensures |r| == |idx|
    ensures forall k | 0 <= k < |r| :: r[k] == idx[k] + 1
  {
    seq(|idx|, k requires 0 <= k < |idx| => idx[k] + 1)
  }

  /** Positions picking `r` from `s` pick it from `[x] + s` once shifted,
      and pick `[x] + r` once position 0 is put in front. */
  lemma PicksFromCons<T>(r: seq<T>, s: seq<T>, idx: seq<nat>, x: T)
    requires PicksFrom(r, s, idx)
    ensures PicksFrom(r, [x] + s, Shift(idx))
    ensures PicksFrom([x] + r, [x] + s, [0] + Shift(idx))
  {
    assert forall k | 0 <= k < |idx| :: ([x] + s)[idx[k] + 1] == s[idx[k]];
    assert forall k | 1 <= k <= |idx| :: ([0] + Shift(idx))[k] == Shift(idx)[k - 1];
  }

  /** A filter deletes elements and never reorders the ones it keeps. */
  lemma {:induction false} FilterIsSubsequence<T>(s: seq<T>, p: T -> bool)
    ensures SubsequenceOf(Filter(s, p), s)
  {
    if s == [] {
      assert PicksFrom(Filter(s, p), s, []);
    } else {
      var tail := Filter(s[1..], p);
      FilterIsSubsequence(s[1..], p);
      var idx :| PicksFrom(tail, s[1..], idx);
      PicksFromCons(tail, s[1..], idx, s[0]);
      assert [s[0]] + s[1..] == s;
      if p(s[0]) {
        assert Filter(s, p) == [s[0]] + tail;
        assert PicksFrom(Filter(s, p), s, [0] + Shift(idx));
      } else {
        assert Filter(s, p) == tail;
        assert PicksFrom(Filter(s, p), s, Shift(idx));
      }
    }
  }

  /** The number of elements of `s` that satisfy `p`. */
  function Count<T>(s: seq<T>, p: T -> bool): nat {
    |Filter(s, p)|
  }

  /** Filtering distributes over concatenation. */
  lemma {:induction false} FilterAppend<T>(a: seq<T>, b: seq<T>, p: T -> bool)
    ensures Filter(a + b, p) == Filter(a, p) + Filter(b, p)
  {
    if a == [] {
      assert a + b == b;
    } else {
      assert (a + b)[1..] == a[1..] + b;
      FilterAppend(a[1..], b, p);
    }
  }

  /** A filter keeps every occurrence of a satisfying element and drops all
      occurrences of the others. */
  lemma {:induction false} FilterMultiplicity<T>(s: seq<T>, p: T -> bool, x: T)
    ensures multiset(Filter(s, p))[x] == if p(x) then multiset(s)[x] else 0
  {
    if s != [] {
      FilterMultiplicity(s[1..], p, x);
      assert s == [s[0]] + s[1..];
    }
  }

  /** A filter whose predicate holds throughout returns its input unchanged. */
  lemma {:induction false} FilterKeepsAll<T>(s: seq<T>, p: T -> bool)
    requires forall x | x in s :: p(x)
    ensures Filter(s, p) == s
  {
    if s != [] {
      FilterKeepsAll(s[1..], p);
    }
  }

  /** Two predicates that agree on the elements of `s` filter it alike. */
  lemma {:induction false} FilterCongruent<T>(s: seq<T>, p: T -> bool, q: T -> bool)
    requires forall x | x in s :: p(x) == q(x)
    ensures Filter(s, p) == Filter(s, q)
  {
    if s != [] {
      FilterCongruent(s[1..], p, q);
    }
  }

  /** Filtering twice is filtering by the conjunction. */
  lemma {:induction false} FilterFilter<T>(s: seq<T>, p: T -> bool, q: T -> bool, pq: T -> bool)
    requires forall x | x in s :: pq(x) == (p(x) && q(x))
    ensures Filter(Filter(s, p), q) == Filter(s, pq)
  {
    if s != [] {
      FilterFilter(s[1..], p, q, pq);
      FilterAppend(if p(s[0]) then [s[0]] else [], Filter(s[1..], p), q);
    }
  }

  /** Rearranging a sequence does not change the multiset of what a filter keeps. */
  lemma FilterPermutation<T(!new)>(a: seq<T>, b: seq<T>, p: T -> bool)
    requires multiset(a) == multiset(b)
    ensures multiset(Filter(a, p)) == multiset(Filter(b, p))
  {
    forall x
      ensures multiset(Filter(a, p))[x] == multiset(Filter(b, p))[x]
    {
      FilterMultiplicity(a, p, x);
      FilterMultiplicity(b, p, x);
      assert multiset(a)[x] == multiset(b)[x];
    }
  }

  /** Counts agree on permutations. */
  lemma CountPermutation<T(!new)>(a: seq<T>, b: seq<T>, p: T -> bool)
    requires multiset(a) == multiset(b)
    ensures Count(a, p) == Count(b, p)
  {
    FilterPermutation(a, b, p);
    assert |multiset(Filter(a, p))| == |multiset(Filter(b, p))|;
  }

  /** What a filter keeps is part of its input. */
  lemma FilterSubMultiset<T(!new)>(s: seq<T>, p: T -> bool)
    ensures multiset(Filter(s, p)) <= multiset(s)
  {
    forall x
      ensures multiset(Filter(s, p))[x] <= multiset(s)[x]
    {
      FilterMultiplicity(s, p, x);
    }
  }

  /** The image of `s` under `f`, in order (`Array.prototype.map`). */
  function Map<T, U>(f: T -> U, s: seq<T>): (r: seq<U>)
    ensures |r| == |s|
    ensures forall i | 0 <= i < |s| :: r[i] == f(s[i])
  {
    seq(|s|, i requires 0 <= i < |s| => f(s[i]))
  }

  /** The sum of `f` over the elements of `s`. */
  function SumOf<T>(s: seq<T>, f: T -> int): int {
    if s == [] then 0 else f(s[0]) + SumOf(s[1..], f)
  }

  /** The value stored under `k`, or 0 when absent (the `m[k] || 0` idiom). */
  function GetOrZero<K>(m: map<K, int>, k: K): int {
    if k in m then m[k] else 0
  }

  /** Counts occurrences of each key, left to right: `h[k] = (h[k] || 0) + 1`. */
  function Histogram<K(!new)>(keys: seq<K>): (h: map<K, int>)
    ensures forall k :: k in h <==> k in keys
    ensures forall k | k in h :: h[k] == multiset(keys)[k] && h[k] >= 1
  {
    if keys == [] then map[]
    else
      var rest := Histogram(keys[..|keys| - 1]);
      var k := keys[|keys| - 1];
      assert keys == keys[..|keys| - 1] + [k];
      rest[k := GetOrZero(rest, k) + 1]
  }

  /** The sum of all values of a map (`Object.values(m).reduce((a, b) => a + b, 0)`). */
  ghost function MapSum<K>(m: map<K, int>): int
    decreases m.Keys
  {
    if m == map[] then 0
    else
      var k :| k in m;
      assert (m - {k}).Keys < m.Keys;
      m[k] + MapSum(m - {k})
  }

  /** The sum may be taken by removing any key first. */
  lemma MapSumRemove<K>(m: map<K, int>, k: K)
    requires k in m
    ensures MapSum(m) == m[k] + MapSum(m - {k})
    decreases m.Keys
  {
    var j :| j in m && MapSum(m) == m[j] + MapSum(m - {j});
    if j != k {
      var mj, mk := m - {j}, m - {k};
      assert mj.Keys < m.Keys && mk.Keys < m.Keys;
      MapSumRemove(mj, k);
      MapSumRemove(mk, j);
      assert mj - {k} == mk - {j};
    }
  }

  /** Storing `v` under `k` changes the sum by `v` minus what was there. */
  lemma MapSumUpdate<K>(m: map<K, int>, k: K, v: int)
    ensures MapSum(m[k := v]) == MapSum(m) - GetOrZero(m, k) + v
  {
    MapSumRemove(m[k := v], k);
    assert m[k := v] - {k} == m - {k};
    if k in m {
      MapSumRemove(m, k);
    } else {
      assert m - {k} == m;
    }
  }

  /** A histogram's counts add up to the number of keys counted. */
  lemma {:induction false} HistogramTotal<K(!new)>(keys: seq<K>)
    ensures MapSum(Histogram(keys)) == |keys|
  {
    if keys != [] {
      var init := keys[..|keys| - 1];
      HistogramTotal(init);
      MapSumUpdate(Histogram(init), keys[|keys| - 1], GetOrZero(Histogram(init), keys[|keys| - 1]) + 1);
    }
  }

  /** Counting distributes over concatenation. */
  lemma CountAppend<T>(a: seq<T>, b: seq<T>, p: T -> bool)
    ensures Count(a + b, p) == Count(a, p) + Count(b, p)
  {
    FilterAppend(a, b, p);
  }

  /** A filter whose predicate fails throughout is empty. */
  lemma {:induction false} FilterKeepsNone<T>(s: seq<T>, p: T -> bool)
    requires forall x | x in s :: !p(x)
    ensures Filter(s, p) == []
  {
    if s != [] {
      FilterKeepsNone(s[1..], p);
    }
  }

  /** Sequences that agree position by position on `p` have equal counts. */
  lemma {:induction false} CountPointwise<T, U>(a: seq<T>, p: T -> bool, b: seq<U>, q: U -> bool)
    requires |a| == |b|
    requires forall i | 0 <= i < |a| :: p(a[i]) == q(b[i])
    ensures Count(a, p) == Count(b, q)
  {
    if a != [] {
      CountPointwise(a[1..], p, b[1..], q);
    }
  }

  /** Filters by mutually exclusive predicates together keep at most what was there. */
  lemma FilterDisjointUnion<T(!new)>(s: seq<T>, p1: T -> bool, p2: T -> bool, p3: T -> bool)
    requires forall x :: !(p1(x) && p2(x)) && !(p1(x) && p3(x)) && !(p2(x) && p3(x))
    ensures multiset(Filter(s, p1)) + multiset(Filter(s, p2)) + multiset(Filter(s, p3)) <= multiset(s)
  {
    forall x
      ensures (multiset(Filter(s, p1)) + multiset(Filter(s, p2)) + multiset(Filter(s, p3)))[x] <= multiset(s)[x]
    {
      FilterMultiplicity(s, p1, x);
      FilterMultiplicity(s, p2, x);
      FilterMultiplicity(s, p3, x);
    }
  }

  /** A prefix of a sequence is part of it. */
  lemma PrefixSubMultiset<T>(s: seq<T>, n: nat)
    requires n <= |s|
    ensures multiset(s[..n]) <= multiset(s)
  {
    assert s == s[..n] + s[n..];
  }

  /** The smaller of two integers. */
  function Min(a: int, b: int): int {
    if a <= b then a else b
  }

  /** A concatenation whose first part alone satisfies `p` has that part's size as its count. */
  lemma CountOfFirstPart<T>(s1: seq<T>, s2: seq<T>, s3: seq<T>, p: T -> bool)
    requires forall x | x in s1 :: p(x)
    requires forall x | x in s2 :: !p(x)
    requires forall x | x in s3 :: !p(x)
    ensures Count(s1 + s2 + s3, p) == |s1|
  {
    FilterAppend(s1 + s2, s3, p);
    FilterAppend(s1, s2, p);
    FilterKeepsAll(s1, p);
    FilterKeepsNone(s2, p);
    FilterKeepsNone(s3, p);
  }

  /** A predicate that holds exactly when one of two exclusive predicates
      does counts as their sum. */
  lemma {:induction false} CountSplit<T>(s: seq<T>, p: T -> bool, p1: T -> bool, p2: T -> bool)
    requires forall x | x in s :: p(x) == (p1(x) || p2(x)) && !(p1(x) && p2(x))
    ensures Count(s, p) == Count(s, p1) + Count(s, p2)
  {
    if s != [] {
      assert forall x | x in s[1..] :: x in s;
      CountSplit(s[1..], p, p1, p2);
    }
  }

  /** A sum of non-negative terms is at least the number of positive terms. */
  /** Inclusion and exclusion: counting the elements meeting either of two
      conditions, plus those meeting both, counts each condition once. */
  lemma {:induction false} CountUnion<T>(s: seq<T>, either: T -> bool, p1: T -> bool, p2: T -> bool, both: T -> bool)
    requires forall x | x in s :: either(x) == (p1(x) || p2(x)) && both(x) == (p1(x) && p2(x))
    ensures Count(s, either) + Count(s, both) == Count(s, p1) + Count(s, p2)
  {
    if s != [] {
      assert forall x | x in s[1..] :: x in s;
      CountUnion(s[1..], either, p1, p2, both);
    }
  }

  /** A sum of non-negative terms is non-negative, and zero exactly when every term is. */
  lemma {:induction false} SumZeroIff<T>(s: seq<T>, f: T -> int)
    requires forall x | x in s :: f(x) >= 0
    ensures SumOf(s, f) >= 0
    ensures SumOf(s, f) == 0 <==> forall x | x in s :: f(x) == 0
  {
    if s != [] {
      assert forall x | x in s[1..] :: x in s;
      SumZeroIff(s[1..], f);
      assert s == [s[0]] + s[1..];
    }
  }

  lemma {:induction false} SumAtLeastCount<T>(s: seq<T>, f: T -> int, p: T -> bool)
    requires forall x | x in s :: f(x) >= 0 && p(x) == (f(x) > 0)
    ensures SumOf(s, f) >= Count(s, p)
  {
    if s != [] {
      assert forall x | x in s[1..] :: x in s;
      SumAtLeastCount(s[1..], f, p);
    }
  }

  /** Filtering by a predicate and by its negation splits a sequence in two. */
  lemma FilterComplement<T(!new)>(s: seq<T>, p: T -> bool, q: T -> bool)
    requires forall x :: q(x) == !p(x)
    ensures multiset(Filter(s, p)) + multiset(Filter(s, q)) == multiset(s)
    ensures Count(s, p) + Count(s, q) == |s|
  {
    forall x
      ensures (multiset(Filter(s, p)) + multiset(Filter(s, q)))[x] == multiset(s)[x]
    {
      FilterMultiplicity(s, p, x);
      FilterMultiplicity(s, q, x);
    }
    assert multiset(Filter(s, p)) + multiset(Filter(s, q)) == multiset(s);
    assert |multiset(Filter(s, p)) + multiset(Filter(s, q))| == |multiset(s)|;
  }

  /** A sequence in which no element failing `p` comes before one satisfying
      it is its `p` elements followed by the rest. */
  lemma FilterSplitsOrdered<T>(s: seq<T>, p: T -> bool, q: T -> bool)
    requires forall x | x in s :: q(x) == !p(x)
    requires forall i, j | 0 <= i < j < |s| && p(s[j]) :: p(s[i])
    ensures s == Filter(s, p) + Filter(s, q)
  {
    var k := match FirstIndex(s, q) case Some(n) => n case None => |s|;
    OrderedAround(s, p, q, k);
    FilterSplitsAt(s, p, q, k);
  }

  /** In such a sequence everything before the first `q` element satisfies
      `p`, and everything from it on satisfies `q`. */
  lemma OrderedAround<T>(s: seq<T>, p: T -> bool, q: T -> bool, k: nat)
    requires forall x | x in s :: q(x) == !p(x)
    requires forall i, j | 0 <= i < j < |s| && p(s[j]) :: p(s[i])
    requires k == match FirstIndex(s, q) case Some(n) => n case None => |s|
    ensures k <= |s|
    ensures forall x | x in s[..k] :: p(x) && !q(x)
    ensures forall x | x in s[k..] :: !p(x) && q(x)
  {
    forall x | x in s[..k]
      ensures p(x) && !q(x)
    {
      var i :| 0 <= i < k && s[i] == x;
    }
    forall x | x in s[k..]
      ensures !p(x) && q(x)
    {
      var i :| k <= i < |s| && s[i] == x;
      assert q(s[k]);
    }
  }

  /** A sequence whose first `k` elements satisfy `p` and whose rest satisfy
      `q` is its `p` elements followed by its `q` elements. */
  lemma FilterSplitsAt<T>(s: seq<T>, p: T -> bool, q: T -> bool, k: nat)
    requires k <= |s|
    requires forall x | x in s[..k] :: p(x) && !q(x)
    requires forall x | x in s[k..] :: !p(x) && q(x)
    ensures s == Filter(s, p) + Filter(s, q)
  {
    assert s == s[..k] + s[k..];
    FilterKeepsFront(s[..k], s[k..], p);
    FilterKeepsBack(s[..k], s[k..], q);
  }

  /** Filtering a front that passes followed by a back that fails keeps the front. */
  lemma FilterKeepsFront<T>(a: seq<T>, b: seq<T>, p: T -> bool)
    requires forall x | x in a :: p(x)
    requires forall x | x in b :: !p(x)
    ensures Filter(a + b, p) == a
  {
    FilterAppend(a, b, p);
    FilterKeepsAll(a, p);
    FilterKeepsNone(b, p);
    assert a + [] == a;
  }

  /** Filtering a front that fails followed by a back that passes keeps the back. */
  lemma FilterKeepsBack<T>(a: seq<T>, b: seq<T>, p: T -> bool)
    requires forall x | x in a :: !p(x)
    requires forall x | x in b :: p(x)
    ensures Filter(a + b, p) == b
  {
    FilterAppend(a, b, p);
    FilterKeepsNone(a, p);
    FilterKeepsAll(b, p);
    assert [] + b == b;
  }

  /** The position of the first element satisfying `p`
      (`Array.prototype.findIndex`, with `None` for -1). */
  function FirstIndex<T>(s: seq<T>, p: T -> bool): (r: Option<nat>)
    ensures r.Some? ==> r.value < |s| && p(s[r.value]) && forall j | 0 <= j < r.value :: !p(s[j])
    ensures r.None? <==> forall j | 0 <= j < |s| :: !p(s[j])
  {
    if s == [] then None
    else if p(s[0]) then Some(0)
    else
      match FirstIndex(s[1..], p)
      case None => None
      case Some(j) => Some(j + 1)
  }

  /** Counting the elements whose key is `k` counts the occurrences of `k`
      among the keys. */
  lemma {:induction false} CountIsMultiplicity<T, K>(s: seq<T>, p: T -> bool, key: T -> K, k: K)
    requires forall x | x in s :: p(x) == (key(x) == k)
    ensures Count(s, p) == multiset(Map(key, s))[k]
  {
    if s != [] {
      assert forall x | x in s[1..] :: x in s;
      CountIsMultiplicity(s[1..], p, key, k);
      assert Map(key, s) == [key(s[0])] + Map(key, s[1..]);
    }
  }

  /** No element occurs twice. */
  predicate Distinct<T(==)>(s: seq<T>) {
    forall i, j | 0 <= i < j < |s| :: s[i] != s[j]
  }

  /** The set of elements of `s` (`new Set(s)`). */
  function Elements<T(!new)>(s: seq<T>): (r: set<T>)
    ensures forall x :: x in r <==> x in s
  {
    if s == [] then {} else {s[0]} + Elements(s[1..])
  }

  /** `new Set(s).size` is at most `s.length`, with equality exactly when no
      element occurs twice. */
  lemma {:induction false} ElementsSize<T(!new)>(s: seq<T>)
    ensures |Elements(s)| <= |s|
    ensures |Elements(s)| == |s| <==> Distinct(s)
  {
    if s != [] {
      ElementsSize(s[1..]);
      DistinctCons(s);
      if s[0] in s[1..] {
        assert Elements(s) == Elements(s[1..]);
      } else {
        assert |Elements(s)| == 1 + |Elements(s[1..])|;
      }
    }
  }

  /** A non-empty sequence has no repeats exactly when its head does not
      occur in its tail and its tail has no repeats. */
  lemma DistinctCons<T>(s: seq<T>)
    requires s != []
    ensures Distinct(s) <==> s[0] !in s[1..] && Distinct(s[1..])
  {
    assert forall j | 0 <= j < |s| - 1 :: s[1..][j] == s[j + 1];
  }
}
