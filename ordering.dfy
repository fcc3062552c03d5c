/**
 * Sorting with a comparator, as `Array.prototype.sort` does it (the sort is
 * stable), and the order of JavaScript's `<` on strings (code-unit by
 * code-unit, a proper prefix first), by which `YYYY-MM-DD` dates compare
 * chronologically.
 */
module Ordering {

  /** `before(a, b)`: the comparator puts `a` strictly before `b`. */
  ghost predicate StrictOrder<T(!new)>(before: (T, T) -> bool)
  {
    (forall a :: !before(a, a))
    && (forall a, b, c :: before(a, b) && before(b, c) ==> before(a, c))
  }

  /** No element is strictly before one that precedes it. */
  predicate SortedBy<T>(s: seq<T>, before: (T, T) -> bool)
  {
    forall i, j :: 0 <= i < j < |s| ==> !before(s[j], s[i])
  }

  /** Puts `x` in front of the first element it comes strictly before, so after every equal one. */
  function InsertBy<T>(x: T, s: seq<T>, before: (T, T) -> bool): (r: seq<T>)
    ensures multiset(r) == multiset(s) + multiset{x}
    ensures |r| == |s| + 1
  {
    if s == [] then [x]
    else if before(x, s[0]) then [x] + s
    else
      assert s == [s[0]] + s[1..];
      [s[0]] + InsertBy(x, s[1..], before)
  }

  /** Reference definition of a stable sort: insertion sort, one element at a time from the left. */
  function SortBy<T>(s: seq<T>, before: (T, T) -> bool): (r: seq<T>)
    ensures multiset(r) == multiset(s)
    ensures |r| == |s|
  {
    if s == [] then []
    else
      assert s == s[..|s| - 1] + [s[|s| - 1]];
      InsertBy(s[|s| - 1], SortBy(s[..|s| - 1], before), before)
  }

  lemma InMultiset<T>(s: seq<T>, x: T)
    ensures x in s <==> x in multiset(s)
  {
  }

  /** Inserting into a sorted sequence keeps it sorted. */
  lemma {:induction false} InsertBySorted<T(!new)>(x: T, s: seq<T>, before: (T, T) -> bool)
    requires StrictOrder(before) && SortedBy(s, before)
    ensures SortedBy(InsertBy(x, s, before), before)
  {
    if s != [] {
      var r := InsertBy(x, s, before);
      if before(x, s[0]) {
        forall i, j | 0 <= i < j < |r| ensures !before(r[j], r[i]) {
          if i == 0 {
            assert r[j] == s[j - 1] && !before(s[j - 1], s[0]);
          }
        }
      } else {
        var t := InsertBy(x, s[1..], before);
        InsertBySorted(x, s[1..], before);
        forall k | 0 <= k < |t| ensures !before(t[k], s[0]) {
          InMultiset(t, t[k]);
          if t[k] != x {
            InMultiset(s[1..], t[k]);
            var m :| 0 <= m < |s[1..]| && s[1..][m] == t[k];
            assert s[m + 1] == t[k];
          }
        }
        assert r == [s[0]] + t;
      }
    }
  }

  /** The reference sort sorts. */
  lemma {:induction false} SortBySorted<T(!new)>(s: seq<T>, before: (T, T) -> bool)
    requires StrictOrder(before)
    ensures SortedBy(SortBy(s, before), before)
  {
    if s != [] {
      SortBySorted(s[..|s| - 1], before);
      InsertBySorted(s[|s| - 1], SortBy(s[..|s| - 1], before), before);
    }
  }

  /** Sorting neither adds nor drops an element. */
  lemma SortByMember<T>(s: seq<T>, before: (T, T) -> bool, x: T)
    ensures x in SortBy(s, before) <==> x in s
  {
    InMultiset(s, x);
    InMultiset(SortBy(s, before), x);
  }

  /** JavaScript's `a < b` on strings. */
  predicate LexLess(a: string, b: string)
  {
    if b == [] then false
    else if a == [] then true
    else a[0] < b[0] || (a[0] == b[0] && LexLess(a[1..], b[1..]))
  }

  lemma {:induction false} LexLessIrreflexive(a: string)
    ensures !LexLess(a, a)
  {
    if a != [] {
      LexLessIrreflexive(a[1..]);
    }
  }

  lemma {:induction false} LexLessTransitive(a: string, b: string, c: string)
    requires LexLess(a, b) && LexLess(b, c)
    ensures LexLess(a, c)
  {
    if a != [] && a[0] == b[0] && b[0] == c[0] {
      LexLessTransitive(a[1..], b[1..], c[1..]);
    }
  }

  /** Two different strings are ordered one way or the other. */
  lemma {:induction false} LexLessTotal(a: string, b: string)
    requires a != b
    ensures LexLess(a, b) || LexLess(b, a)
  {
    if a != [] && b != [] && a[0] == b[0] {
      assert a == [a[0]] + a[1..] && b == [b[0]] + b[1..];
      LexLessTotal(a[1..], b[1..]);
    }
  }

  /** Of two strings at most one is below the other. */
  lemma LexLessAsymmetric(a: string, b: string)
    requires LexLess(a, b)
    ensures !LexLess(b, a)
  {
    if LexLess(b, a) {
      LexLessTransitive(a, b, a);
      LexLessIrreflexive(a);
    }
  }
}
