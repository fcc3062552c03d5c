/**
 * String helpers shared by the model: the JavaScript string operations the
 * application uses (`split`, `join`, `replace(/x/g, '')`, `includes`,
 * `toLowerCase`, `toUpperCase`, `trim`, `slice`), restricted to ASCII where
 * a Unicode table would be needed.
 */
module Text {

  predicate IsDigit(c: char) { '0' <= c <= '9' }

  predicate IsUpperAscii(c: char) { 'A' <= c <= 'Z' }

  predicate IsLowerAscii(c: char) { 'a' <= c <= 'z' }

  /** A character of the regular-expression class `\w`: `[A-Za-z0-9_]`. */
  predicate IsWordChar(c: char) { IsDigit(c) || IsUpperAscii(c) || IsLowerAscii(c) || c == '_' }

  /** ASCII white space, as removed by `trim`. */
  predicate IsSpace(c: char)
  {
    c == ' ' || c == '\t' || c == '\n' || c == '\r' || c == '\U{000B}' || c == '\U{000C}'
  }

  predicate AllDigits(s: string) { forall i :: 0 <= i < |s| ==> IsDigit(s[i]) }

  predicate NoChar(s: string, c: char) { forall i :: 0 <= i < |s| ==> s[i] != c }

  function ToLowerChar(c: char): (r: char)
    ensures IsUpperAscii(c) ==> IsLowerAscii(r)
    ensures !IsUpperAscii(c) ==> r == c
  {
    if IsUpperAscii(c) then (c as int - 'A' as int + 'a' as int) as char else c
  }

  function ToUpperChar(c: char): (r: char)
    ensures IsLowerAscii(c) ==> IsUpperAscii(r)
    ensures !IsLowerAscii(c) ==> r == c
  {
    if IsLowerAscii(c) then (c as int - 'a' as int + 'A' as int) as char else c
  }

  /** `toLowerCase`, ASCII letters only. */
  function Lower(s: string): (r: string)
    ensures |r| == |s|
    ensures forall i :: 0 <= i < |s| ==> r[i] == ToLowerChar(s[i])
  {
    seq(|s|, i requires 0 <= i < |s| => ToLowerChar(s[i]))
  }

  /** `toUpperCase`, ASCII letters only. */
  function Upper(s: string): (r: string)
    ensures |r| == |s|
    ensures forall i :: 0 <= i < |s| ==> r[i] == ToUpperChar(s[i])
  {
    seq(|s|, i requires 0 <= i < |s| => ToUpperChar(s[i]))
  }

  function TrimStart(s: string): (r: string)
    ensures |r| <= |s|
    ensures r != [] ==> !IsSpace(r[0])
    decreases |s|
  {
    if s != [] && IsSpace(s[0]) then TrimStart(s[1..]) else s
  }

  function TrimEnd(s: string): (r: string)
    ensures |r| <= |s| && r == s[..|r|]
    ensures r != [] ==> !IsSpace(r[|r| - 1])
    decreases |s|
  {
    if s != [] && IsSpace(s[|s| - 1]) then TrimEnd(s[..|s| - 1]) else s
  }

  /** `trim`: white space removed at both ends. */
  function Trim(s: string): string { TrimEnd(TrimStart(s)) }

  /** `s.slice(0, n)`. */
  function Take(s: string, n: nat): (r: string)
    ensures |r| <= n && |r| <= |s|
  {
    if |s| <= n then s else s[..n]
  }

  /** `s.replace(/c/g, '')`. */
  function RemoveAll(s: string, c: char): (r: string)
    ensures NoChar(r, c)
    ensures |r| <= |s|
  {
    if s == [] then [] else (if s[0] == c then [] else [s[0]]) + RemoveAll(s[1..], c)
  }

  /** The number of occurrences of `c` in `s`. */
  function Count(s: string, c: char): nat
  {
    if s == [] then 0 else (if s[0] == c then 1 else 0) + Count(s[1..], c)
  }

  /** `s.indexOf(c)`, or `|s|` when `c` does not occur. */
  function IndexOf(s: string, c: char): (k: nat)
    ensures k <= |s|
    ensures k < |s| ==> s[k] == c
    ensures NoChar(s[..k], c)
  {
    if s == [] then 0 else if s[0] == c then 0 else 1 + IndexOf(s[1..], c)
  }

  /** `s.includes(sub)`. */
  predicate Contains(s: string, sub: string)
  {
    exists i :: 0 <= i <= |s| - |sub| && OccursAt(s, sub, i)
  }

  /** `sub` occurs in `s` starting at index `i`. */
  predicate OccursAt(s: string, sub: string, i: nat)
  {
    i + |sub| <= |s| && s[i..i + |sub|] == sub
  }

  /** `s.split(sep)` for a one-character separator. */
  function Split(s: string, sep: char): (parts: seq<string>)
    ensures |parts| == Count(s, sep) + 1
    ensures forall k :: 0 <= k < |parts| ==> NoChar(parts[k], sep)
  {
    if s == [] then [[]]
    else
      var rest := Split(s[1..], sep);
      if s[0] == sep then [[]] + rest else [[s[0]] + rest[0]] + rest[1..]
  }

  /** `parts.join(sep)`. */
  function Join(parts: seq<string>, sep: char): string
    requires |parts| >= 1
  {
    if |parts| == 1 then parts[0] else parts[0] + [sep] + Join(parts[1..], sep)
  }

  lemma {:induction false} JoinSplit(s: string, sep: char)
    ensures Join(Split(s, sep), sep) == s
  {
    if s != [] {
      JoinSplit(s[1..], sep);
      var rest := Split(s[1..], sep);
      if s[0] != sep {
        if |rest| == 1 {
        } else {
          assert Join(rest, sep) == rest[0] + [sep] + Join(rest[1..], sep);
          assert ([s[0]] + rest[0]) + [sep] + Join(rest[1..], sep) == [s[0]] + Join(rest, sep);
        }
      }
    }
  }

  lemma SplitNoSep(s: string, sep: char)
    requires NoChar(s, sep)
    ensures Split(s, sep) == [s]
  {
    if s != [] {
      SplitNoSep(s[1..], sep);
      assert [s[0]] + s[1..] == s;
    }
  }

  lemma {:induction false} SplitOneSep(a: string, b: string, sep: char)
    requires NoChar(a, sep) && NoChar(b, sep)
    ensures Split(a + [sep] + b, sep) == [a, b]
  {
    if a == [] {
      assert a + [sep] + b == [sep] + b;
      assert ([sep] + b)[1..] == b;
      SplitNoSep(b, sep);
    } else {
      assert (a + [sep] + b)[1..] == a[1..] + [sep] + b;
      SplitOneSep(a[1..], b, sep);
      assert [a[0]] + a[1..] == a;
    }
  }

  /** The last piece of a split is what follows the last separator. */
  lemma {:induction false} SplitLast(a: string, b: string, sep: char)
    requires NoChar(b, sep)
    ensures var parts := Split(a + [sep] + b, sep);
      |parts| >= 2 && parts[|parts| - 1] == b
  {
    if a == [] {
      assert a + [sep] + b == [sep] + b;
      assert ([sep] + b)[1..] == b;
      SplitNoSep(b, sep);
    } else {
      assert (a + [sep] + b)[1..] == a[1..] + [sep] + b;
      SplitLast(a[1..], b, sep);
    }
  }

  lemma {:induction false} CountNoChar(s: string, c: char)
    requires NoChar(s, c)
    ensures Count(s, c) == 0
  {
    if s != [] {
      CountNoChar(s[1..], c);
    }
  }

  lemma {:induction false} CountAppend(a: string, b: string, c: char)
    ensures Count(a + b, c) == Count(a, c) + Count(b, c)
  {
    if a != [] {
      assert (a + b)[1..] == a[1..] + b;
      CountAppend(a[1..], b, c);
    } else {
      assert a + b == b;
    }
  }

  lemma {:induction false} RemoveAllAppend(a: string, b: string, c: char)
    ensures RemoveAll(a + b, c) == RemoveAll(a, c) + RemoveAll(b, c)
  {
    if a != [] {
      assert (a + b)[1..] == a[1..] + b;
      RemoveAllAppend(a[1..], b, c);
    } else {
      assert a + b == b;
    }
  }

  lemma {:induction false} RemoveAllNoChar(s: string, c: char)
    requires NoChar(s, c)
    ensures RemoveAll(s, c) == s
  {
    if s != [] {
      RemoveAllNoChar(s[1..], c);
    }
  }

  /** `TrimStart` only removes characters from the front. */
  lemma {:induction false} TrimStartSuffix(s: string)
    ensures TrimStart(s) == s[|s| - |TrimStart(s)|..]
    decreases |s|
  {
    if s != [] && IsSpace(s[0]) {
      TrimStartSuffix(s[1..]);
    }
  }

  lemma TrimStartNoSpace(s: string)
    requires s == [] || !IsSpace(s[0])
    ensures TrimStart(s) == s
  {
  }

  lemma TrimEndNoSpace(s: string)
    requires s == [] || !IsSpace(s[|s| - 1])
    ensures TrimEnd(s) == s
  {
  }

  /** A string whose two ends are not white space is its own trim. */
  lemma TrimNoSpace(s: string)
    requires s == [] || (!IsSpace(s[0]) && !IsSpace(s[|s| - 1]))
    ensures Trim(s) == s
  {
    TrimStartNoSpace(s);
    TrimEndNoSpace(s);
  }

  /** Trimming a string made only of white space leaves nothing. */
  lemma {:induction false} TrimAllSpace(s: string)
    requires forall i :: 0 <= i < |s| ==> IsSpace(s[i])
    ensures TrimStart(s) == [] && Trim(s) == []
  {
    if s != [] {
      TrimAllSpace(s[1..]);
    }
  }

  /** Only a string made of white space trims to nothing. */
  lemma {:induction false} TrimEmptyAllSpace(s: string)
    requires Trim(s) == []
    ensures forall i :: 0 <= i < |s| ==> IsSpace(s[i])
  {
    var t := TrimStart(s);
    if t != [] {
      assert !IsSpace(t[0]);
      TrimEndKeepsNonSpace(t);
      assert false;
    }
    TrimStartEmpty(s);
  }

  lemma {:induction false} TrimStartEmpty(s: string)
    requires TrimStart(s) == []
    ensures forall i :: 0 <= i < |s| ==> IsSpace(s[i])
    decreases |s|
  {
    if s != [] {
      assert IsSpace(s[0]);
      TrimStartEmpty(s[1..]);
      forall i | 0 < i < |s| ensures IsSpace(s[i]) {
        assert s[i] == s[1..][i - 1];
      }
    }
  }

  lemma {:induction false} TrimEndKeepsNonSpace(t: string)
    requires t != [] && !IsSpace(t[0])
    ensures TrimEnd(t) != []
    decreases |t|
  {
    if IsSpace(t[|t| - 1]) {
      TrimEndKeepsNonSpace(t[..|t| - 1]);
    }
  }

  /** When `c` occurs in `s`, `indexOf` finds it inside the string. */
  lemma {:induction false} IndexOfCount(s: string, c: char)
    requires Count(s, c) > 0
    ensures IndexOf(s, c) < |s|
  {
    if s[0] != c {
      IndexOfCount(s[1..], c);
    }
  }

  lemma {:induction false} RemoveAllChars(s: string, c: char, x: char)
    requires x in RemoveAll(s, c)
    ensures x in s
  {
    if s != [] && x != s[0] {
      RemoveAllChars(s[1..], c, x);
    }
  }

  /** The first piece of a split is the text before the first separator. */
  lemma {:induction false} SplitHead(s: string, sep: char)
    ensures Split(s, sep)[0] == s[..IndexOf(s, sep)]
  {
    if s != [] && s[0] != sep {
      SplitHead(s[1..], sep);
      assert s[..IndexOf(s, sep)] == [s[0]] + s[1..][..IndexOf(s[1..], sep)];
    }
  }

  lemma ContainsEmpty(s: string)
    ensures Contains(s, [])
  {
    assert OccursAt(s, [], 0);
  }
}
