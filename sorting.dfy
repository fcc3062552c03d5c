/**
 * Sorting by an integer rank, as done by `Array.prototype.sort` with a
 * comparator that subtracts ranks: a functional insertion sort as the
 * reference, an in-place insertion sort on an array, and the fact that a
 * sorted arrangement is unique when no two elements share a rank.
 */
module Sorting {
  import opened Collections

  predicate Sorted<T>(s: seq<T>, rank: T -> int)
  {
    forall i, j :: 0 <= i < j < |s| ==> rank(s[i]) <= rank(s[j])
  }

  predicate StrictlySorted<T>(s: seq<T>, rank: T -> int)
  {
    forall i, j :: 0 <= i < j < |s| ==> rank(s[i]) < rank(s[j])
  }

  /** No two positions hold elements of the same rank. */
  predicate RanksDistinct<T>(s: seq<T>, rank: T -> int)
  {
    forall i, j :: 0 <= i < j < |s| ==> rank(s[i]) != rank(s[j])
  }

  /** Puts `x` after every element of `s` whose rank is not greater. */
  function Insert<T>(x: T, s: seq<T>, rank: T -> int): (r: seq<T>)
    ensures multiset(r) == multiset(s) + multiset{x}
    ensures |r| == |s| + 1 && (r[0] == x || (s != [] && r[0] == s[0]))
  {
    if s == [] then [x]
    else if rank(x) < rank(s[0]) then [x] + s
    else
      assert s == [s[0]] + s[1..];
      [s[0]] + Insert(x, s[1..], rank)
  }

  /** Inserting into a sorted sequence keeps it sorted. */
  lemma {:induction false} InsertSorted<T>(x: T, s: seq<T>, rank: T -> int)
    requires Sorted(s, rank)
    ensures Sorted(Insert(x, s, rank), rank)
  {
    if s != [] && rank(x) >= rank(s[0]) {
      InsertSorted(x, s[1..], rank);
    }
  }

  /** Reference definition: insertion sort, one element at a time from the left. */
  function InsertionSort<T>(s: seq<T>, rank: T -> int): (r: seq<T>)
    ensures multiset(r) == multiset(s)
  {
    if s == [] then []
    else
      assert s == s[..|s| - 1] + [s[|s| - 1]];
      Insert(s[|s| - 1], InsertionSort(s[..|s| - 1], rank), rank)
  }

  /** The reference sort sorts. */
  lemma {:induction false} InsertionSortSorted<T>(s: seq<T>, rank: T -> int)
    ensures Sorted(InsertionSort(s, rank), rank)
  {
    if s != [] {
      InsertionSortSorted(s[..|s| - 1], rank);
      InsertSorted(s[|s| - 1], InsertionSort(s[..|s| - 1], rank), rank);
    }
  }

  /** Sorting neither adds nor drops an element. */
  lemma SortMember<T>(s: seq<T>, rank: T -> int, x: T)
    ensures x in InsertionSort(s, rank) <==> x in s
  {
    assert x in InsertionSort(s, rank) <==> x in multiset(InsertionSort(s, rank));
  }

  /** A bound on the ranks of some elements holds for any rearrangement of them. */
  lemma RankBoundMoves<T>(a: seq<T>, b: seq<T>, rank: T -> int, m: int)
    requires multiset(a) == multiset(b)
    requires forall i :: 0 <= i < |b| ==> 0 <= rank(b[i]) < m
    ensures forall i :: 0 <= i < |a| ==> 0 <= rank(a[i]) < m
  {
    forall i | 0 <= i < |a| ensures 0 <= rank(a[i]) < m {
      assert a[i] in multiset(b);
      var k :| 0 <= k < |b| && b[k] == a[i];
    }
  }

  /** The first `n` elements of `a` are in rank order. */
  predicate PrefixSorted<T>(a: array<T>, n: int, rank: T -> int)
    reads a
    requires 0 <= n <= a.Length
  {
    forall p, q :: 0 <= p < q < n ==> rank(a[p]) <= rank(a[q])
  }

  /**
   * While `s[j]` sinks through `s[..i + 1]`: everything but `s[j]` is in rank
   * order, and `s[j]` ranks below everything after it.
   */
  ghost predicate Sinking<T>(s: seq<T>, i: int, j: int, rank: T -> int)
  {
    0 <= j <= i < |s|
    && (forall p, q :: 0 <= p < q <= i && p != j && q != j ==> rank(s[p]) <= rank(s[q]))
    && (forall q :: j < q <= i ==> rank(s[j]) < rank(s[q]))
  }

  lemma SinkStep<T>(s: seq<T>, i: int, j: int, rank: T -> int)
    requires Sinking(s, i, j, rank) && j > 0 && rank(s[j - 1]) > rank(s[j])
    ensures Sinking(s[j - 1 := s[j]][j := s[j - 1]], i, j - 1, rank)
    ensures multiset(s[j - 1 := s[j]][j := s[j - 1]]) == multiset(s)
  {
  }

  lemma SinkDone<T>(s: seq<T>, i: int, j: int, rank: T -> int)
    requires Sinking(s, i, j, rank) && (j == 0 || rank(s[j - 1]) <= rank(s[j]))
    ensures forall p, q :: 0 <= p < q <= i ==> rank(s[p]) <= rank(s[q])
  {
  }

  /** Moves `a[i]` down past the larger elements before it, so that `a[..i + 1]` is in rank order. */
  method SinkLast<T>(a: array<T>, i: int, rank: T -> int)
    requires 0 <= i < a.Length && PrefixSorted(a, i, rank)
    modifies a
    ensures PrefixSorted(a, i + 1, rank)
    ensures multiset(a[..]) == multiset(old(a[..]))
  {
    var j := i;
    while j > 0 && rank(a[j - 1]) > rank(a[j])
      invariant Sinking(a[..], i, j, rank)
      invariant multiset(a[..]) == multiset(old(a[..]))
    {
      ghost var before := a[..];
      SinkStep(before, i, j, rank);
      a[j - 1], a[j] := a[j], a[j - 1];
      assert a[..] == before[j - 1 := before[j]][j := before[j - 1]];
      j := j - 1;
    }
    SinkDone(a[..], i, j, rank);
  }

  /** Sorts `a` in place by rank (insertion sort; equal ranks keep their order). */
  method SortArray<T>(a: array<T>, rank: T -> int)
    modifies a
    ensures Sorted(a[..], rank)
    ensures multiset(a[..]) == multiset(old(a[..]))
  {
    var i := 0;
    while i < a.Length
      invariant 0 <= i <= a.Length
      invariant PrefixSorted(a, i, rank)
      invariant multiset(a[..]) == multiset(old(a[..]))
    {
      SinkLast(a, i, rank);
      i := i + 1;
    }
  }

  /** The element of least rank comes first in both arrangements. */
  lemma SameFirst<T>(a: seq<T>, b: seq<T>, rank: T -> int)
    requires StrictlySorted(a, rank) && StrictlySorted(b, rank)
    requires a != [] && b != [] && multiset(a) == multiset(b)
    ensures a[0] == b[0]
  {
    assert a[0] in multiset(a);
    var j :| 0 <= j < |b| && b[j] == a[0];
    assert b[0] in multiset(b);
    var k :| 0 <= k < |a| && a[k] == b[0];
    assert rank(a[0]) <= rank(a[k]);
    assert j == 0;
  }

  lemma DropFirst<T>(a: seq<T>, b: seq<T>)
    requires a != [] && b != [] && a[0] == b[0] && multiset(a) == multiset(b)
    ensures multiset(a[1..]) == multiset(b[1..])
  {
    assert a == [a[0]] + a[1..];
    assert b == [b[0]] + b[1..];
    assert multiset(a[1..]) == multiset(a) - multiset{a[0]};
    assert multiset(b[1..]) == multiset(b) - multiset{b[0]};
  }

  /** Two arrangements of the same elements that are both strictly sorted are the same sequence. */
  lemma {:induction false} StrictlySortedUnique<T>(a: seq<T>, b: seq<T>, rank: T -> int)
    requires StrictlySorted(a, rank) && StrictlySorted(b, rank)
    requires multiset(a) == multiset(b)
    ensures a == b
  {
    assert |a| == |multiset(a)| == |multiset(b)| == |b|;
    if a != [] {
      SameFirst(a, b, rank);
      DropFirst(a, b);
      StrictlySortedUnique(a[1..], b[1..], rank);
      assert a == [a[0]] + a[1..] && b == [b[0]] + b[1..];
    }
  }

  /** With distinct ranks no value occurs twice. */
  lemma {:induction false} NoRepeat<T>(t: seq<T>, rank: T -> int, v: T)
    requires RanksDistinct(t, rank)
    ensures multiset(t)[v] <= 1
  {
    if t != [] {
      assert t == [t[0]] + t[1..];
      assert forall k :: 0 <= k < |t[1..]| ==> t[1..][k] == t[k + 1];
      assert t[0] !in t[1..];
      NoRepeat(t[1..], rank, v);
    }
  }

  /** With distinct ranks, two elements of the same rank are the same element. */
  lemma RankInjective<T>(t: seq<T>, rank: T -> int, x: T, y: T)
    requires RanksDistinct(t, rank) && x in t && y in t
    ensures rank(x) == rank(y) ==> x == y
  {
    var p :| 0 <= p < |t| && t[p] == x;
    var q :| 0 <= q < |t| && t[q] == y;
  }

  /** A sorted rearrangement of elements with distinct ranks is strictly sorted. */
  lemma SortedDistinctStrict<T>(s: seq<T>, t: seq<T>, rank: T -> int)
    requires Sorted(s, rank) && multiset(s) == multiset(t) && RanksDistinct(t, rank)
    ensures StrictlySorted(s, rank)
  {
    forall i, j | 0 <= i < j < |s| ensures rank(s[i]) < rank(s[j]) {
      NoRepeat(t, rank, s[i]);
      OnceAtOnePosition(s, i, j);
      assert s[i] in multiset(s) && s[j] in multiset(s);
      RankInjective(t, rank, s[i], s[j]);
    }
  }

  /** Strictly increasing ranks taken from `[lo, m)` number at most `m - lo`. */
  lemma {:induction false} StrictlySortedBound<T>(s: seq<T>, rank: T -> int, lo: int, m: int)
    requires StrictlySorted(s, rank)
    requires forall i :: 0 <= i < |s| ==> lo <= rank(s[i]) < m
    ensures s == [] || |s| <= m - lo
    decreases |s|
  {
    if s != [] {
      var t := s[1..];
      assert forall i :: 0 <= i < |t| ==> rank(s[0]) < rank(t[i]) < m;
      StrictlySortedBound(t, rank, rank(s[0]) + 1, m);
    }
  }
}
