/** Sequence combinators standing for JavaScript's `filter`, `reduce` (sum),
    `[...new Set(xs)]`, stable `sort` and `slice`. */
module Seqs {

  /** `s.filter(p)`: the elements satisfying `p`, in their original order. */
  function Filter<T(!new)>(s: seq<T>, p: T -> bool): (r: seq<T>)
    ensures |r| <= |s|
    ensures forall x :: x in r <==> x in s && p(x)
  {
    if s == [] then [] else Filter(s[..|s| - 1], p) + (if p(s[|s| - 1]) then [s[|s| - 1]] else [])
  }

  /** Filtering distributes over concatenation, so a filter keeps relative order. */
  lemma {:induction false} FilterConcat<T(!new)>(a: seq<T>, b: seq<T>, p: T -> bool)
    ensures Filter(a + b, p) == Filter(a, p) + Filter(b, p)
    decreases |b|
  {
    if b == [] {
      assert a + b == a;
    } else {
      var b' := b[..|b| - 1];
      var last := if p(b[|b| - 1]) then [b[|b| - 1]] else [];
      calc {
        Filter(a + b, p);
        { assert (a + b)[..|a + b| - 1] == a + b' && (a + b)[|a + b| - 1] == b[|b| - 1]; }
        Filter(a + b', p) + last;
        { FilterConcat(a, b', p); }
        Filter(a, p) + Filter(b', p) + last;
        Filter(a, p) + (Filter(b', p) + last);
        { assert Filter(b, p) == Filter(b', p) + last; }
        Filter(a, p) + Filter(b, p);
      }
    }
  }

  /** A filter keeps relative order: two kept elements come from positions of `s` in the
      same order. */
  lemma {:induction false} FilterKeepsOrder<T(!new)>(s: seq<T>, p: T -> bool, i: nat, j: nat)
    requires i < j < |Filter(s, p)|
    ensures exists a, b :: 0 <= a < b < |s| && s[a] == Filter(s, p)[i] && s[b] == Filter(s, p)[j]
    decreases |s|
  {
    var n := |s| - 1;
    var init := s[..n];
    var f := Filter(init, p);
    var r := Filter(s, p);
    assert r == f + (if p(s[n]) then [s[n]] else []);
    if j < |f| {
      FilterKeepsOrder(init, p, i, j);
      var a, b :| 0 <= a < b < |init| && init[a] == f[i] && init[b] == f[j];
      assert s[a] == r[i] && s[b] == r[j];
    } else {
      assert r[j] == s[n] && r[i] == f[i];
      assert f[i] in init;
      var a :| 0 <= a < |init| && init[a] == f[i];
      assert s[a] == r[i];
    }
  }

  /** The multiset of a sequence is that of all but its last element, plus the last. */
  lemma MultisetLast<T>(s: seq<T>)
    requires s != []
    ensures multiset(s) == multiset(s[..|s| - 1]) + multiset{s[|s| - 1]}
  {
    assert s == s[..|s| - 1] + [s[|s| - 1]];
  }

  /** Four running totals, each grown by one addend, sum to the old total plus the addends. */
  lemma Regroup<T>(a: multiset<T>, b: multiset<T>, c: multiset<T>, d: multiset<T>,
                   e: multiset<T>, f: multiset<T>, g: multiset<T>, h: multiset<T>)
    ensures (a + e) + (b + f) + (c + g) + (d + h) == (a + b + c + d) + (e + f + g + h)
  {
  }

  predicate Distinct<T(==)>(s: seq<T>) {
    forall i, j :: 0 <= i < j < |s| ==> s[i] != s[j]
  }

  /** Filtering a sequence without repeats gives one without repeats. */
  lemma {:induction false} FilterDistinct<T(!new)>(s: seq<T>, p: T -> bool)
    requires Distinct(s)
    ensures Distinct(Filter(s, p))
    decreases |s|
  {
    if s != [] {
      var init := s[..|s| - 1];
      assert Distinct(init);
      FilterDistinct(init, p);
      assert s[|s| - 1] !in init;
    }
  }

  /** Sum of a sequence of integers, `xs.reduce((s, x) => s + x, 0)`. */
  function Sum(xs: seq<int>): int {
    if xs == [] then 0 else Sum(xs[..|xs| - 1]) + xs[|xs| - 1]
  }

  lemma {:induction false} SumConcat(a: seq<int>, b: seq<int>)
    ensures Sum(a + b) == Sum(a) + Sum(b)
    decreases |b|
  {
    if b != [] {
      assert (a + b)[..|a + b| - 1] == a + b[..|b| - 1];
      SumConcat(a, b[..|b| - 1]);
    } else {
      assert a + b == a;
    }
  }

  /** The position of the first occurrence of `x` in `s`. */
  function FirstIndex<T(==)>(s: seq<T>, x: T): (k: nat)
    requires x in s
    ensures k < |s| && s[k] == x && forall j :: 0 <= j < k ==> s[j] != x
  {
    if s[0] == x then 0 else 1 + FirstIndex(s[1..], x)
  }

  /** A position holding `x` with no `x` before it is the first occurrence. */
  lemma FirstIndexUnique<T>(s: seq<T>, x: T, k: nat)
    requires k < |s| && s[k] == x && forall j :: 0 <= j < k ==> s[j] != x
    ensures FirstIndex(s, x) == k
  {
  }

  /** A first occurrence in a prefix is the first occurrence in the whole sequence. */
  lemma FirstIndexPrefix<T>(s: seq<T>, n: nat, x: T)
    requires n <= |s| && x in s[..n]
    ensures FirstIndex(s, x) == FirstIndex(s[..n], x)
  {
    var k := FirstIndex(s[..n], x);
    assert forall j :: 0 <= j <= k ==> s[j] == s[..n][j];
    FirstIndexUnique(s, x, k);
  }

  /** `[...new Set(s)]`: each distinct element once, in the order of first occurrence. */
  function Dedupe<T(==,!new)>(s: seq<T>): (r: seq<T>)
    ensures forall x :: x in r <==> x in s
    ensures Distinct(r)
    ensures forall i, j :: 0 <= i < j < |r| ==> FirstIndex(s, r[i]) < FirstIndex(s, r[j])
  {
    if s == [] then []
    else
      var n := |s| - 1;
      var d := Dedupe(s[..n]);
      forall x | x in d ensures FirstIndex(s, x) == FirstIndex(s[..n], x) {
        FirstIndexPrefix(s, n, x);
      }
      if s[n] in d then d
      else
        var r := d + [s[n]];
        assert FirstIndex(s, s[n]) == n by {
          assert s[n] !in s[..n];
          assert forall j :: 0 <= j < n ==> s[j] == s[..n][j];
          FirstIndexUnique(s, s[n], n);
        }
        assert forall i :: 0 <= i < |d| ==> r[i] == d[i] && FirstIndex(s, d[i]) < n;
        r
  }

  /** Filtering the deduplicated sequence keeps the order of first occurrence. */
  lemma FilterDedupeOrder<T(!new)>(s: seq<T>, p: T -> bool)
    ensures var r := Filter(Dedupe(s), p);
      forall i, j :: 0 <= i < j < |r| ==> r[i] in s && r[j] in s && FirstIndex(s, r[i]) < FirstIndex(s, r[j])
  {
    var d := Dedupe(s);
    var r := Filter(d, p);
    forall i, j | 0 <= i < j < |r|
      ensures r[i] in s && r[j] in s && FirstIndex(s, r[i]) < FirstIndex(s, r[j])
    {
      FilterKeepsOrder(d, p, i, j);
      var a, b :| 0 <= a < b < |d| && d[a] == r[i] && d[b] == r[j];
    }
  }

  ghost predicate TotalPreorder<T(!new)>(le: (T, T) -> bool) {
    && (forall a, b :: le(a, b) || le(b, a))
    && (forall a, b, c :: le(a, b) && le(b, c) ==> le(a, c))
  }

  predicate SortedBy<T>(s: seq<T>, le: (T, T) -> bool) {
    forall i, j :: 0 <= i < j < |s| ==> le(s[i], s[j])
  }

  /** Places `x` after every element it does not precede, so equal elements keep order. */
  function Insert<T>(s: seq<T>, x: T, le: (T, T) -> bool): (r: seq<T>)
    ensures multiset(r) == multiset(s) + multiset{x}
  {
    if s == [] then [x]
    else if le(s[|s| - 1], x) then s + [x]
    else
      assert s == s[..|s| - 1] + [s[|s| - 1]];
      Insert(s[..|s| - 1], x, le) + [s[|s| - 1]]
  }

  /** Stable insertion sort, the order `Array.prototype.sort` produces with a consistent comparator. */
  function SortBy<T>(s: seq<T>, le: (T, T) -> bool): (r: seq<T>)
    ensures multiset(r) == multiset(s)
  {
    if s == [] then []
    else
      assert s == s[..|s| - 1] + [s[|s| - 1]];
      Insert(SortBy(s[..|s| - 1], le), s[|s| - 1], le)
  }

  lemma {:induction false} InsertSorted<T(!new)>(s: seq<T>, x: T, le: (T, T) -> bool)
    requires TotalPreorder(le) && SortedBy(s, le)
    ensures SortedBy(Insert(s, x, le), le)
    decreases |s|
  {
    if s != [] && !le(s[|s| - 1], x) {
      var init := s[..|s| - 1];
      var last := s[|s| - 1];
      InsertSorted(init, x, le);
      var r0 := Insert(init, x, le);
      forall y | y in r0 ensures le(y, last) {
        assert y in multiset(r0);
        if y != x {
          assert y in multiset(init);
          var k :| 0 <= k < |init| && init[k] == y;
          assert s[k] == y;
        }
      }
    }
  }

  lemma {:induction false} SortBySorted<T(!new)>(s: seq<T>, le: (T, T) -> bool)
    requires TotalPreorder(le)
    ensures SortedBy(SortBy(s, le), le)
    decreases |s|
  {
    if s != [] {
      SortBySorted(s[..|s| - 1], le);
      InsertSorted(SortBy(s[..|s| - 1], le), s[|s| - 1], le);
    }
  }

  /** In a sorted sequence each of the first `k` elements precedes every element after them. */
  lemma PrefixDominates<T>(s: seq<T>, k: nat, le: (T, T) -> bool)
    requires SortedBy(s, le) && k <= |s|
    ensures multiset(s[..k]) <= multiset(s)
    ensures forall i, x :: 0 <= i < k && x in multiset(s) - multiset(s[..k]) ==> le(s[i], x)
  {
    var rest := s[k..];
    assert s == s[..k] + rest;
    assert multiset(s) == multiset(s[..k]) + multiset(rest);
    forall i, x | 0 <= i < k && x in multiset(s) - multiset(s[..k])
      ensures le(s[i], x)
    {
      assert x in multiset(rest);
      var j :| 0 <= j < |rest| && rest[j] == x;
      assert s[k + j] == x;
    }
  }

  /** `s.slice(0, n)`. */
  function Take<T>(s: seq<T>, n: nat): (r: seq<T>)
    ensures |r| == if n < |s| then n else |s|
    ensures r == s[..|r|]
  {
    if n < |s| then s[..n] else s
  }
}
