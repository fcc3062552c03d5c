/**
 * The thousands separator used by both amount formatters:
 * `s.replace(/\B(?=(\d{3})+(?!\d))/g, ',')`.
 *
 * A comma goes in front of index `i` exactly when the position is not a word
 * boundary (`\B`: the character before it is a word character, because the
 * character at `i` is a digit and so a word character) and the run of digits
 * that starts at `i` has a length that is a positive multiple of three.
 */
module Grouping {
  import opened Text

  /** The length of the run of digits at the start of `s`. */
  function DigitRun(s: string): (n: nat)
    ensures n <= |s|
  {
    if s != [] && IsDigit(s[0]) then 1 + DigitRun(s[1..]) else 0
  }

  predicate CommaAt(s: string, i: nat)
    requires i < |s|
  {
    0 < i && IsWordChar(s[i - 1]) && DigitRun(s[i..]) > 0 && DigitRun(s[i..]) % 3 == 0
  }

  /** The characters of `s` from index `i` on, with the commas the regular expression inserts. */
  function Splice(s: string, i: nat): string
    requires i <= |s|
    decreases |s| - i
  {
    if i == |s| then [] else (if CommaAt(s, i) then [','] else []) + [s[i]] + Splice(s, i + 1)
  }

  function InsertCommas(s: string): string
  {
    Splice(s, 0)
  }

  /**
   * Reference definition: groups of three digits counted from the right,
   * joined by commas.
   */
  function GroupDigits(d: string): (g: string)
    ensures |g| >= |d|
  {
    if |d| <= 3 then d else GroupDigits(d[..|d| - 3]) + [','] + d[|d| - 3..]
  }

  lemma {:induction false} DigitRunAll(s: string)
    requires AllDigits(s)
    ensures DigitRun(s) == |s|
  {
    if s != [] {
      DigitRunAll(s[1..]);
    }
  }

  /** Removing the commas again gives the characters that were there: the formatter only inserts commas. */
  lemma {:induction false} SpliceRemoveCommas(s: string, i: nat)
    requires i <= |s|
    ensures RemoveAll(Splice(s, i), ',') == RemoveAll(s[i..], ',')
    decreases |s| - i
  {
    if i < |s| {
      SpliceRemoveCommas(s, i + 1);
      var pre := if CommaAt(s, i) then [','] else [];
      RemoveAllAppend(pre + [s[i]], Splice(s, i + 1), ',');
      RemoveAllAppend(pre, [s[i]], ',');
      assert s[i..] == [s[i]] + s[i + 1..];
      RemoveAllAppend([s[i]], s[i + 1..], ',');
    }
  }

  /** Removing the inserted commas gives back the text. */
  lemma RemoveCommasInsert(s: string)
    ensures RemoveAll(InsertCommas(s), ',') == RemoveAll(s, ',')
  {
    SpliceRemoveCommas(s, 0);
    assert s[0..] == s;
  }

  /** Every character of the output is a character of the input or a comma. */
  lemma {:induction false} SpliceChars(s: string, i: nat, x: char)
    requires i <= |s|
    requires x != ',' && x in Splice(s, i)
    ensures x in s[i..]
    decreases |s| - i
  {
    if i < |s| {
      var pre := if CommaAt(s, i) then [','] else [];
      assert Splice(s, i) == pre + [s[i]] + Splice(s, i + 1);
      if x != s[i] {
        SpliceChars(s, i + 1, x);
        assert s[i + 1..] == s[i..][1..];
      }
    }
  }

  /** For a string of digits, the comma condition only depends on the distance to the end. */
  lemma CommaAtDigits(s: string, i: nat)
    requires AllDigits(s) && i < |s|
    ensures CommaAt(s, i) <==> 0 < i && (|s| - i) % 3 == 0
  {
    DigitRunAll(s[i..]);
  }

  lemma SpliceTail(s: string, i: nat)
    requires AllDigits(s) && 0 < i < |s| && |s| - i < 3
    ensures Splice(s, i) == s[i..]
    decreases |s| - i
  {
    CommaAtDigits(s, i);
    if i + 1 < |s| {
      SpliceTail(s, i + 1);
    }
    assert s[i..] == [s[i]] + s[i + 1..];
  }

  /** The last group of a digit string longer than three gets a comma in front. */
  lemma SpliceLastGroup(s: string)
    requires AllDigits(s) && |s| > 3
    ensures Splice(s, |s| - 3) == [','] + s[|s| - 3..]
  {
    var n := |s|;
    CommaAtDigits(s, n - 3);
    SpliceTail(s, n - 2);
    assert s[n - 3..] == [s[n - 3]] + s[n - 2..];
  }

  /** Cutting the last three digits off: the output loses its last comma and group. */
  lemma {:induction false} SpliceDropGroup(s: string, i: nat)
    requires AllDigits(s) && |s| > 3 && i <= |s| - 3
    ensures Splice(s, i) == Splice(s[..|s| - 3], i) + [','] + s[|s| - 3..]
    decreases |s| - i
  {
    if i == |s| - 3 {
      SpliceDropLast(s);
    } else {
      SpliceDropGroup(s, i + 1);
      SpliceDropStep(s, i);
    }
  }

  /** The base of `SpliceDropGroup`: from the last group on, only that group and its comma are left. */
  lemma SpliceDropLast(s: string)
    requires AllDigits(s) && |s| > 3
    ensures Splice(s, |s| - 3) == Splice(s[..|s| - 3], |s| - 3) + [','] + s[|s| - 3..]
  {
    SpliceLastGroup(s);
    assert Splice(s[..|s| - 3], |s| - 3) == [];
  }

  /** One step of `SpliceDropGroup`: the character at `i` and its comma are the same in both. */
  lemma SpliceDropStep(s: string, i: nat)
    requires AllDigits(s) && |s| > 3 && i < |s| - 3
    requires Splice(s, i + 1) == Splice(s[..|s| - 3], i + 1) + [','] + s[|s| - 3..]
    ensures Splice(s, i) == Splice(s[..|s| - 3], i) + [','] + s[|s| - 3..]
  {
    var p := s[..|s| - 3];
    CommaAtPrefix(s, i);
    assert p[i] == s[i];
    var pre := if CommaAt(s, i) then [','] else [];
    assert Splice(s, i) == pre + [s[i]] + Splice(s, i + 1);
    assert Splice(p, i) == pre + [s[i]] + Splice(p, i + 1);
  }

  /** Before the last group, cutting it off does not move a comma. */
  lemma CommaAtPrefix(s: string, i: nat)
    requires AllDigits(s) && |s| > 3 && i < |s| - 3
    ensures AllDigits(s[..|s| - 3]) && (CommaAt(s[..|s| - 3], i) <==> CommaAt(s, i))
  {
    var p := s[..|s| - 3];
    assert AllDigits(p);
    CommaAtDigits(s, i);
    CommaAtDigits(p, i);
    var m := |p| - i;
    assert |s| - i == m + 3;
    assert (m + 3) % 3 == m % 3;
  }

  /** The regular expression groups a digit string exactly as the reference definition. */
  lemma {:induction false} InsertCommasGroups(d: string)
    requires AllDigits(d)
    ensures InsertCommas(d) == GroupDigits(d)
    decreases |d|
  {
    if |d| <= 3 {
      SpliceNoComma(d, 0);
    } else {
      SpliceDropGroup(d, 0);
      assert AllDigits(d[..|d| - 3]);
      InsertCommasGroups(d[..|d| - 3]);
    }
  }

  lemma {:induction false} SpliceNoComma(d: string, i: nat)
    requires AllDigits(d) && |d| <= 3 && i <= |d|
    ensures Splice(d, i) == d[i..]
    decreases |d| - i
  {
    if i < |d| {
      CommaAtDigits(d, i);
      SpliceNoComma(d, i + 1);
      assert d[i..] == [d[i]] + d[i + 1..];
    }
  }

  /** In the reference grouping a comma stands exactly at every fourth position counted from the right. */
  lemma {:induction false} GroupDigitsCommas(d: string, k: nat)
    requires AllDigits(d) && k < |GroupDigits(d)|
    ensures GroupDigits(d)[k] == ',' <==> 0 < k && (|GroupDigits(d)| - k) % 4 == 0
    ensures GroupDigits(d)[k] != ',' ==> IsDigit(GroupDigits(d)[k])
    decreases |d|
  {
    var g := GroupDigits(d);
    if |d| > 3 {
      var p := d[..|d| - 3];
      assert AllDigits(p);
      var front := GroupDigits(p);
      assert g == front + [','] + d[|d| - 3..];
      if k < |front| {
        assert g[k] == front[k];
        GroupDigitsCommas(p, k);
      } else if k > |front| {
        assert g[k] == d[|d| - 3..][k - |front| - 1];
      }
    }
  }
}
