/**
 * `Array.prototype.filter` and `slice(0, n)` on sequences, with the facts
 * the services rely on: filtering keeps order and membership, and keeps
 * pairwise-distinct keys distinct.
 */
module Collections {

  /** `s.filter(keep)`. */
  function Filter<T>(s: seq<T>, keep: T -> bool): (r: seq<T>)
    ensures |r| <= |s|
    ensures forall i :: 0 <= i < |r| ==> r[i] in s && keep(r[i])
    ensures forall i :: 0 <= i < |s| && keep(s[i]) ==> s[i] in r
  {
    if s == [] then []
    else (if keep(s[0]) then [s[0]] else []) + Filter(s[1..], keep)
  }

  /** A filter that keeps nothing gives the empty sequence. */
  lemma {:induction false} FilterNone<T>(s: seq<T>, keep: T -> bool)
    requires forall i :: 0 <= i < |s| ==> !keep(s[i])
    ensures Filter(s, keep) == []
  {
    if s != [] {
      FilterNone(s[1..], keep);
    }
  }

  /** A filter that keeps everything gives the input back. */
  lemma {:induction false} FilterAll<T>(s: seq<T>, keep: T -> bool)
    requires forall i :: 0 <= i < |s| ==> keep(s[i])
    ensures Filter(s, keep) == s
  {
    if s != [] {
      FilterAll(s[1..], keep);
      assert [s[0]] + s[1..] == s;
    }
  }

  /** `s.reduce((sum, x) => sum + f(x), 0)`. */
  function Sum<T>(s: seq<T>, f: T -> real): real
  {
    if s == [] then 0.0 else Sum(s[..|s| - 1], f) + f(s[|s| - 1])
  }

  lemma {:induction false} SumAppend<T>(a: seq<T>, b: seq<T>, f: T -> real)
    ensures Sum(a + b, f) == Sum(a, f) + Sum(b, f)
    decreases |b|
  {
    if b == [] {
      assert a + b == a;
    } else {
      assert (a + b)[..|a + b| - 1] == a + b[..|b| - 1];
      SumAppend(a, b[..|b| - 1], f);
    }
  }

  /** The sum does not depend on the order of the elements. */
  lemma {:induction false} SumPermutation<T>(a: seq<T>, b: seq<T>, f: T -> real)
    requires multiset(a) == multiset(b)
    ensures Sum(a, f) == Sum(b, f)
    decreases |a|
  {
    if a != [] {
      var k := PairLast(a, b);
      var rest := b[..k] + b[k + 1..];
      SumPermutation(a[..|a| - 1], rest, f);
      assert b == b[..k] + [b[k]] + b[k + 1..];
      SumInsert(b[..k], b[k], b[k + 1..], f);
    }
  }

  /**
   * The last element of a non-empty sequence occurs in any permutation of
   * it, and what is left of either once it is taken out is again a permutation.
   */
  lemma PairLast<T>(a: seq<T>, b: seq<T>) returns (k: nat)
    requires a != [] && multiset(a) == multiset(b)
    ensures k < |b| && b[k] == a[|a| - 1]
    ensures multiset(a[..|a| - 1]) == multiset(b[..k] + b[k + 1..])
  {
    var x := a[|a| - 1];
    assert x in multiset(b);
    k :| 0 <= k < |b| && b[k] == x;
    assert a == a[..|a| - 1] + [x];
    RemoveAtMultiset(b, k);
  }

  /** Taking out the element at `k` takes one occurrence of it out of the multiset. */
  lemma RemoveAtMultiset<T>(b: seq<T>, k: nat)
    requires k < |b|
    ensures multiset(b[..k] + b[k + 1..]) == multiset(b) - multiset{b[k]}
  {
    assert b == b[..k] + [b[k]] + b[k + 1..];
    assert multiset(b) == multiset(b[..k]) + multiset{b[k]} + multiset(b[k + 1..]);
  }

  /** The sum with one more element in the middle is the sum plus that element's value. */
  lemma SumInsert<T>(pre: seq<T>, x: T, post: seq<T>, f: T -> real)
    ensures Sum(pre + [x] + post, f) == Sum(pre + post, f) + f(x)
  {
    var withX := pre + [x];
    SumAppend(withX, post, f);
    assert withX[..|withX| - 1] == pre;
    SumAppend(pre, post, f);
  }

  /** The elements a filter keeps and those a complementary filter keeps sum to the whole. */
  lemma {:induction false} SumSplit<T>(s: seq<T>, keep: T -> bool, drop: T -> bool, f: T -> real)
    requires forall i :: 0 <= i < |s| ==> drop(s[i]) == !keep(s[i])
    ensures Sum(Filter(s, keep), f) + Sum(Filter(s, drop), f) == Sum(s, f)
  {
    if s != [] {
      var x, rest := s[0], s[1..];
      SumSplit(rest, keep, drop, f);
      assert s == [x] + rest;
      SumCons(x, rest, f);
      if keep(x) {
        assert Filter(s, keep) == [x] + Filter(rest, keep);
        assert Filter(s, drop) == Filter(rest, drop);
        SumCons(x, Filter(rest, keep), f);
      } else {
        assert Filter(s, keep) == Filter(rest, keep);
        assert Filter(s, drop) == [x] + Filter(rest, drop);
        SumCons(x, Filter(rest, drop), f);
      }
    }
  }

  /** Summing from the front: the first value plus the sum of the rest. */
  lemma SumCons<T>(x: T, rest: seq<T>, f: T -> real)
    ensures Sum([x] + rest, f) == f(x) + Sum(rest, f)
  {
    SumAppend([x], rest, f);
    assert Sum([x], f) == f(x) by { assert [x][..0] == []; }
  }

  /** `f` on the elements `keep` accepts, 0 on the others. */
  function Masked<T>(keep: T -> bool, f: T -> real): T -> real
  {
    (x: T) => if keep(x) then f(x) else 0.0
  }

  /** Summing what a filter keeps is summing the masked values of every element. */
  lemma {:induction false} SumFilter<T>(s: seq<T>, keep: T -> bool, f: T -> real)
    ensures Sum(Filter(s, keep), f) == Sum(s, Masked(keep, f))
  {
    if s != [] {
      var p, x := s[..|s| - 1], s[|s| - 1];
      assert s == p + [x];
      SumFilter(p, keep, f);
      FilterAppend(p, [x], keep);
      assert Filter([x], keep) == if keep(x) then [x] else [];
      SumAppend(Filter(p, keep), Filter([x], keep), f);
      assert Sum([x], f) == f(x) by { assert [x][..0] == []; }
    }
  }

  /** `s.findIndex(p)`, with `|s|` standing for "not found". */
  function FindIndex<T>(s: seq<T>, p: T -> bool): (k: nat)
    ensures k <= |s| && (k < |s| ==> p(s[k]))
    ensures forall j :: 0 <= j < k ==> !p(s[j])
  {
    if s == [] then 0 else if p(s[0]) then 0 else 1 + FindIndex(s[1..], p)
  }

  /** A prefix of a list with distinct keys has distinct keys. */
  lemma PrefixKeysDistinct<T, K>(s: seq<T>, n: int, key: T -> K)
    requires KeysDistinct(s, key)
    ensures KeysDistinct(Prefix(s, n), key)
  {
    var r := Prefix(s, n);
    assert forall i, j :: 0 <= i < j < |r| ==> r[i] == s[i] && r[j] == s[j];
  }

  /** A filter keeps nothing exactly when nothing passes, and otherwise starts with the first element that does. */
  lemma {:induction false} FilterHead<T>(s: seq<T>, keep: T -> bool)
    ensures Filter(s, keep) == [] <==> FindIndex(s, keep) == |s|
    ensures Filter(s, keep) != [] ==> Filter(s, keep)[0] == s[FindIndex(s, keep)]
  {
    if s != [] && !keep(s[0]) {
      FilterHead(s[1..], keep);
    }
  }

  /** `s.slice(0, n)`. */
  function Prefix<T>(s: seq<T>, n: int): (r: seq<T>)
    ensures |r| == if n <= 0 then 0 else if n < |s| then n else |s|
    ensures forall i :: 0 <= i < |r| ==> r[i] == s[i]
  {
    if n <= 0 then [] else if n < |s| then s[..n] else s
  }

  /** What a filter keeps is an element of the input the test accepts. */
  lemma FilterMember<T>(s: seq<T>, keep: T -> bool, x: T)
    requires x in Filter(s, keep)
    ensures x in s && keep(x)
  {
    var r := Filter(s, keep);
    var k :| 0 <= k < |r| && r[k] == x;
  }

  /** An accepted element of the input is kept. */
  lemma FilterKeeps<T>(s: seq<T>, keep: T -> bool, x: T)
    requires x in s && keep(x)
    ensures x in Filter(s, keep)
  {
    var k :| 0 <= k < |s| && s[k] == x;
  }

  /** Cutting `a + b` at a length `a` fits in keeps all of `a` and the start of `b`. */
  lemma PrefixOfConcat<T>(a: seq<T>, b: seq<T>, cap: int)
    requires |a| <= cap
    ensures var r := Prefix(a + b, cap);
      && |a| <= |r| && r[..|a|] == a && r[|a|..] == Prefix(b, |r| - |a|)
  {
    var r := Prefix(a + b, cap);
    assert r[..|a|] == a;
    assert r[|a|..] == Prefix(b, |r| - |a|);
  }

  /** An element of a cut of `a + b` comes from `a` or from `b`. */
  lemma PrefixOfConcatMember<T>(a: seq<T>, b: seq<T>, cap: int, i: nat)
    requires i < |Prefix(a + b, cap)|
    ensures Prefix(a + b, cap)[i] in a || Prefix(a + b, cap)[i] in b
  {
    var r := Prefix(a + b, cap);
    assert r[i] == (a + b)[i];
    if i >= |a| {
      assert r[i] == b[i - |a|];
    }
  }

  /** A test that holds on every element of `a` and of `b` holds on every element of `a + b`. */
  lemma ConcatEach<T>(a: seq<T>, b: seq<T>, p: T -> bool)
    requires forall i :: 0 <= i < |a| ==> p(a[i])
    requires forall i :: 0 <= i < |b| ==> p(b[i])
    ensures forall i :: 0 <= i < |a + b| ==> p((a + b)[i])
  {
    forall i | 0 <= i < |a + b| ensures p((a + b)[i]) {
      if i >= |a| {
        assert (a + b)[i] == b[i - |a|];
      }
    }
  }

  /** No two positions carry the same key. */
  predicate KeysDistinct<T, K(==)>(s: seq<T>, key: T -> K)
  {
    forall i, j :: 0 <= i < j < |s| ==> key(s[i]) != key(s[j])
  }

  lemma {:induction false} FilterAppend<T>(a: seq<T>, b: seq<T>, keep: T -> bool)
    ensures Filter(a + b, keep) == Filter(a, keep) + Filter(b, keep)
  {
    if a == [] {
      assert a + b == b;
    } else {
      assert (a + b)[1..] == a[1..] + b;
      FilterAppend(a[1..], b, keep);
    }
  }

  /** With distinct keys, no element occurs twice. */
  lemma {:induction false} KeysDistinctOnce<T, K>(s: seq<T>, key: T -> K, x: T)
    requires KeysDistinct(s, key)
    ensures multiset(s)[x] <= 1
  {
    if s != [] {
      assert s == [s[0]] + s[1..];
      assert KeysDistinct(s[1..], key) by {
        forall i, j | 0 <= i < j < |s[1..]| ensures key(s[1..][i]) != key(s[1..][j]) {
          assert s[1..][i] == s[i + 1] && s[1..][j] == s[j + 1];
        }
      }
      assert s[0] !in s[1..] by {
        forall k | 0 <= k < |s[1..]| ensures s[1..][k] != s[0] {
          assert key(s[0]) != key(s[k + 1]);
        }
      }
      KeysDistinctOnce(s[1..], key, x);
    }
  }

  /** A value counted once is not at two positions. */
  lemma OnceAtOnePosition<T>(s: seq<T>, i: nat, j: nat)
    requires i < j < |s| && multiset(s)[s[i]] <= 1
    ensures s[i] != s[j]
  {
    assert s == s[..i] + [s[i]] + s[i + 1..j] + [s[j]] + s[j + 1..];
  }

  /** A rearrangement of elements with distinct keys has distinct keys. */
  lemma KeysDistinctPermutation<T, K>(a: seq<T>, b: seq<T>, key: T -> K)
    requires multiset(a) == multiset(b) && KeysDistinct(b, key)
    ensures KeysDistinct(a, key)
  {
    forall i, j | 0 <= i < j < |a| ensures key(a[i]) != key(a[j]) {
      assert a[i] in multiset(b) && a[j] in multiset(b);
      var p :| 0 <= p < |b| && b[p] == a[i];
      var q :| 0 <= q < |b| && b[q] == a[j];
      KeysDistinctOnce(b, key, a[i]);
      OnceAtOnePosition(a, i, j);
    }
  }

  /** Filtering keeps distinct keys distinct. */
  lemma {:induction false} FilterKeysDistinct<T, K>(s: seq<T>, keep: T -> bool, key: T -> K)
    requires KeysDistinct(s, key)
    ensures KeysDistinct(Filter(s, keep), key)
  {
    if s != [] {
      var rest := Filter(s[1..], keep);
      FilterKeysDistinct(s[1..], keep, key);
      forall i | 0 <= i < |rest| ensures key(rest[i]) != key(s[0]) {
        var k :| 0 <= k < |s[1..]| && s[1..][k] == rest[i];
        assert s[k + 1] == rest[i];
      }
    }
  }

  /** No element before `s[i]` has its key. */
  predicate IsFirstOfKey<T, K(==)>(s: seq<T>, key: T -> K, i: nat)
    requires i < |s|
  {
    forall j :: 0 <= j < i ==> key(s[j]) != key(s[i])
  }

  /** Among the first `n` elements, the first element of each key, in order. */
  function FirstOfEach<T, K(==)>(s: seq<T>, key: T -> K, n: nat): (r: seq<T>)
    requires n <= |s|
    ensures |r| <= n
  {
    if n == 0 then []
    else FirstOfEach(s, key, n - 1) + (if IsFirstOfKey(s, key, n - 1) then [s[n - 1]] else [])
  }

  /** Every kept element is an element of the input. */
  lemma {:induction false} FirstOfEachMember<T, K>(s: seq<T>, key: T -> K, n: nat, x: T)
    requires n <= |s| && x in FirstOfEach(s, key, n)
    ensures x in s[..n]
  {
    var prev := FirstOfEach(s, key, n - 1);
    if x in prev {
      FirstOfEachMember(s, key, n - 1, x);
      assert s[..n - 1] <= s[..n];
    } else {
      assert x == s[n - 1] == s[..n][n - 1];
    }
  }

  /** `x` is the first element of its key among the first `n` elements. */
  predicate IsFirstAmong<T(==), K(==)>(s: seq<T>, key: T -> K, n: nat, x: T)
    requires n <= |s|
  {
    exists j :: 0 <= j < n && IsFirstOfKey(s, key, j) && x == s[j]
  }

  /** Every kept element is the first of its key. */
  lemma {:induction false} FirstOfEachFirsts<T, K>(s: seq<T>, key: T -> K, n: nat)
    requires n <= |s|
    ensures forall i :: 0 <= i < |FirstOfEach(s, key, n)| ==> IsFirstAmong(s, key, n, FirstOfEach(s, key, n)[i])
  {
    if n > 0 {
      FirstOfEachFirsts(s, key, n - 1);
      var prev := FirstOfEach(s, key, n - 1);
      var r := FirstOfEach(s, key, n);
      forall i | 0 <= i < |r| ensures IsFirstAmong(s, key, n, r[i]) {
        if i < |prev| {
          assert r[i] == prev[i] && IsFirstAmong(s, key, n - 1, prev[i]);
        } else {
          assert r[i] == s[n - 1];
        }
      }
    }
  }

  /** Every element shares its key with a first element at or before it. */
  lemma {:induction false} FirstWithKey<T, K>(s: seq<T>, key: T -> K, i: nat)
    requires i < |s|
    ensures exists j :: 0 <= j <= i && IsFirstOfKey(s, key, j) && key(s[j]) == key(s[i])
  {
    if !IsFirstOfKey(s, key, i) {
      var j :| 0 <= j < i && key(s[j]) == key(s[i]);
      FirstWithKey(s, key, j);
    }
  }

  /** No two kept elements share a key. */
  lemma {:induction false} FirstOfEachDistinct<T, K>(s: seq<T>, key: T -> K, n: nat)
    requires n <= |s|
    ensures KeysDistinct(FirstOfEach(s, key, n), key)
  {
    if n > 0 {
      var prev := FirstOfEach(s, key, n - 1);
      FirstOfEachDistinct(s, key, n - 1);
      if IsFirstOfKey(s, key, n - 1) {
        forall k | 0 <= k < |prev| ensures key(prev[k]) != key(s[n - 1]) {
          FirstOfEachMember(s, key, n - 1, prev[k]);
          var j :| 0 <= j < n - 1 && s[..n - 1][j] == prev[k];
          assert s[j] == prev[k];
        }
        assert FirstOfEach(s, key, n) == prev + [s[n - 1]];
      }
    }
  }

  /** Some element of `r` has the key of `x`. */
  predicate HasKeyOf<T, K(==)>(r: seq<T>, key: T -> K, x: T)
  {
    exists k :: 0 <= k < |r| && key(r[k]) == key(x)
  }

  /** The key of every element is kept. */
  lemma {:induction false} FirstOfEachCovers<T, K>(s: seq<T>, key: T -> K, n: nat)
    requires n <= |s|
    ensures forall i :: 0 <= i < n ==> HasKeyOf(FirstOfEach(s, key, n), key, s[i])
  {
    if n > 0 {
      FirstOfEachCovers(s, key, n - 1);
      forall i | 0 <= i < n ensures HasKeyOf(FirstOfEach(s, key, n), key, s[i]) {
        FirstOfEachCoversStep(s, key, n, i);
      }
    }
  }

  /** One more element keeps every key already covered and covers its own key. */
  lemma FirstOfEachCoversStep<T, K>(s: seq<T>, key: T -> K, n: nat, i: nat)
    requires 0 < n <= |s| && i < n
    requires forall j :: 0 <= j < n - 1 ==> HasKeyOf(FirstOfEach(s, key, n - 1), key, s[j])
    ensures HasKeyOf(FirstOfEach(s, key, n), key, s[i])
  {
    var prev := FirstOfEach(s, key, n - 1);
    var r := FirstOfEach(s, key, n);
    assert r == prev + (if IsFirstOfKey(s, key, n - 1) then [s[n - 1]] else []);
    if i < n - 1 {
      assert HasKeyOf(prev, key, s[i]);
      var k :| 0 <= k < |prev| && key(prev[k]) == key(s[i]);
      assert r[k] == prev[k];
    } else if IsFirstOfKey(s, key, n - 1) {
      assert r[|prev|] == s[n - 1];
    } else {
      FirstWithKey(s, key, n - 1);
      var j :| 0 <= j < n - 1 && IsFirstOfKey(s, key, j) && key(s[j]) == key(s[n - 1]);
      assert HasKeyOf(prev, key, s[j]);
      var k :| 0 <= k < |prev| && key(prev[k]) == key(s[j]);
      assert r[k] == prev[k];
    }
  }

  /**
   * The loop that fills a `Map` keyed by `key` when the key is not yet
   * there: the map's values, in insertion order, are the first element of
   * each key.
   */
  method FirstOfEachByMap<T, K(==)>(s: seq<T>, key: T -> K) returns (values: seq<T>)
    ensures values == FirstOfEach(s, key, |s|)
  {
    var seen: map<K, T> := map[];
    values := [];
    for i := 0 to |s|
      invariant values == FirstOfEach(s, key, i)
      invariant seen.Keys == set j | 0 <= j < i :: key(s[j])
    {
      var k := key(s[i]);
      if k !in seen {
        seen := seen[k := s[i]];
        values := values + [s[i]];
      }
    }
  }
}
