/**
 * The amount fields of the forms: keyboard text is reduced to digits and one
 * decimal point, the decimals are capped at two, thousands commas are put in,
 * and the displayed text is read back as a number when the form is submitted.
 */
module AmountInput {
  import opened Text
  import opened JsNum
  import opened Grouping

  predicate IsAmountChar(c: char) { IsDigit(c) || c == '.' }

  predicate AmountChars(s: string) { forall i :: 0 <= i < |s| ==> IsAmountChar(s[i]) }

  /** `s.replace(/[^0-9.]/g, '')`. */
  function KeepAmountChars(s: string): (r: string)
    ensures |r| <= |s| && AmountChars(r)
  {
    if s == [] then [] else (if IsAmountChar(s[0]) then [s[0]] else []) + KeepAmountChars(s[1..])
  }

  /** The text before the first point and the text between the first and the second point. */
  function IntAndDecimals(s: string): (p: (string, string))
    requires AmountChars(s)
    ensures AllDigits(p.0) && AllDigits(p.1)
  {
    SplitDigits(s);
    var parts := Split(s, '.');
    (parts[0], if |parts| > 1 then parts[1] else [])
  }

  /** `formatAmountForDisplay` for a text value. */
  function FormatAmountForDisplay(value: string): string
  {
    if value == [] then []
    else
      var (intPart, decPart) := IntAndDecimals(KeepAmountChars(value));
      var withCommas := InsertCommas(intPart);
      if decPart == [] then withCommas else withCommas + "." + Take(decPart, 2)
  }

  /** `parseAmountFromDisplay`: blank or unreadable text counts as 0. */
  function ParseAmountFromDisplay(display: string): real
  {
    if display == [] || Trim(display) == [] then 0.0
    else
      var n := ParseFloat(Trim(RemoveAll(display, ',')));
      if n.NaN? then 0.0 else n.value
  }

  /** `allowed`: when there are several points, every point after the first is removed. */
  function FirstDotOnly(next: string): string
  {
    if Count(next, '.') > 1 then
      var firstDot := IndexOf(next, '.');
      IndexOfCount(next, '.');
      next[..firstDot + 1] + RemoveAll(next[firstDot + 1..], '.')
    else next
  }

  /** `handleAmountInputChange(nextValue)`: the new display text of an amount field. */
  function HandleAmountInputChange(nextValue: string): string
  {
    var allowed := FirstDotOnly(KeepAmountChars(nextValue));
    var parts := Split(allowed, '.');
    var combined := if |parts| > 1 then parts[0] + "." + Take(parts[1], 2) else parts[0];
    FormatAmountForDisplay(if combined == "." then "0" else combined)
  }

  /**
   * Reference definition of the display form: the integer digits grouped by
   * three from the right, then, when there are decimals, a point and the decimals.
   */
  function Render(whole: string, frac: string): string
  {
    GroupDigits(whole) + (if frac == [] then [] else "." + frac)
  }

  /**
   * A well-formed display amount: only digits, commas and points, at most one
   * point, at most two characters after it, and no point at the very end.
   */
  predicate IsDisplayAmount(r: string)
  {
    (forall i :: 0 <= i < |r| ==> IsDigit(r[i]) || r[i] == ',' || r[i] == '.')
    && Count(r, '.') <= 1
    && (forall i :: 0 <= i < |r| && r[i] == '.' ==> |r| - 1 - i <= 2)
    && (r != [] ==> r[|r| - 1] != '.')
  }

  // ---------------------------------------------------------------------
  // Helper facts about the character filters

  lemma {:induction false} KeepAmountCharsAppend(a: string, b: string)
    ensures KeepAmountChars(a + b) == KeepAmountChars(a) + KeepAmountChars(b)
  {
    if a != [] {
      assert (a + b)[1..] == a[1..] + b;
      KeepAmountCharsAppend(a[1..], b);
    } else {
      assert a + b == b;
    }
  }

  lemma {:induction false} KeepAmountCharsOfAmount(s: string)
    requires AmountChars(s)
    ensures KeepAmountChars(s) == s
  {
    if s != [] {
      KeepAmountCharsOfAmount(s[1..]);
      assert [s[0]] + s[1..] == s;
    }
  }

  /** The filter drops the commas of a grouped number and keeps its digits. */
  lemma {:induction false} KeepAmountCharsOfGroups(w: string)
    requires AllDigits(w)
    ensures KeepAmountChars(GroupDigits(w)) == w
    decreases |w|
  {
    if |w| <= 3 {
      KeepAmountCharsOfAmount(w);
    } else {
      var p := w[..|w| - 3];
      var last := w[|w| - 3..];
      assert AllDigits(p) && AllDigits(last);
      KeepAmountCharsOfGroups(p);
      KeepAmountCharsJoin(GroupDigits(p), last, p);
      assert GroupDigits(w) == GroupDigits(p) + [','] + last;
      assert p + last == w;
    }
  }

  /** The filter drops the comma between a group and the digits after it. */
  lemma KeepAmountCharsJoin(front: string, last: string, digits: string)
    requires KeepAmountChars(front) == digits && AllDigits(last)
    ensures KeepAmountChars(front + [','] + last) == digits + last
  {
    assert KeepAmountChars(front + [','] + last) == KeepAmountChars(front + [',']) + KeepAmountChars(last) by {
      KeepAmountCharsAppend(front + [','], last);
    }
    assert KeepAmountChars(front + [',']) == digits by {
      KeepAmountCharsAppend(front, [',']);
      assert KeepAmountChars([',']) == [];
    }
    KeepAmountCharsOfAmount(last);
  }

  lemma {:induction false} SplitDigits(s: string)
    requires AmountChars(s)
    ensures forall k :: 0 <= k < |Split(s, '.')| ==> AllDigits(Split(s, '.')[k])
  {
    if s != [] {
      SplitDigits(s[1..]);
    }
  }

  lemma {:induction false} RemoveAllAmount(s: string, c: char)
    requires AmountChars(s)
    ensures AmountChars(RemoveAll(s, c))
  {
    if s != [] {
      RemoveAllAmount(s[1..], c);
    }
  }

  /** After `FirstDotOnly` at most one point is left. */
  lemma FirstDotOnlyShape(s: string)
    requires AmountChars(s)
    ensures AmountChars(FirstDotOnly(s)) && Count(FirstDotOnly(s), '.') <= 1
  {
    if Count(s, '.') > 1 {
      var k := IndexOf(s, '.');
      IndexOfCount(s, '.');
      var tail := RemoveAll(s[k + 1..], '.');
      assert s[..k + 1] == s[..k] + [s[k]];
      CountNoChar(s[..k], '.');
      CountAppend(s[..k], [s[k]], '.');
      CountNoChar(tail, '.');
      CountAppend(s[..k + 1], tail, '.');
      RemoveAllAmount(s[k + 1..], '.');
    }
  }

  lemma GroupDigitsShape(w: string)
    requires AllDigits(w)
    ensures forall i :: 0 <= i < |GroupDigits(w)| ==> IsDigit(GroupDigits(w)[i]) || GroupDigits(w)[i] == ','
    ensures NoChar(GroupDigits(w), '.')
  {
    var g := GroupDigits(w);
    forall i | 0 <= i < |g| ensures IsDigit(g[i]) || g[i] == ',' {
      GroupDigitsCommas(w, i);
    }
  }

  /** Removing the commas of a grouped number gives back its digits. */
  lemma RemoveCommasOfGroups(w: string)
    requires AllDigits(w)
    ensures RemoveAll(GroupDigits(w), ',') == w
  {
    InsertCommasGroups(w);
    RemoveCommasInsert(w);
    RemoveAllNoChar(w, ',');
  }

  // ---------------------------------------------------------------------
  // The display form

  /** Every rendered amount is well formed, and the commas are its only additions. */
  lemma RenderShape(whole: string, frac: string)
    requires AllDigits(whole) && AllDigits(frac) && |frac| <= 2
    ensures IsDisplayAmount(Render(whole, frac))
    ensures RemoveAll(Render(whole, frac), ',') == Plain(whole, frac)
  {
    if frac == [] {
      RenderShapeWhole(whole);
    } else {
      RenderShapeDecimal(whole, frac);
    }
  }

  lemma RenderShapeWhole(whole: string)
    requires AllDigits(whole)
    ensures IsDisplayAmount(Render(whole, []))
    ensures RemoveAll(Render(whole, []), ',') == Plain(whole, [])
  {
    var g := GroupDigits(whole);
    assert Render(whole, []) == g;
    assert Plain(whole, []) == whole;
    GroupDigitsShape(whole);
    CountNoChar(g, '.');
    RemoveCommasOfGroups(whole);
  }

  lemma RenderShapeDecimal(whole: string, frac: string)
    requires AllDigits(whole) && AllDigits(frac) && 0 < |frac| <= 2
    ensures IsDisplayAmount(Render(whole, frac))
    ensures RemoveAll(Render(whole, frac), ',') == Plain(whole, frac)
  {
    var g := GroupDigits(whole);
    var tail: string := ['.'] + frac;
    assert Render(whole, frac) == g + tail;
    assert Plain(whole, frac) == whole + tail;
    GroupDigitsShape(whole);
    DecimalDisplay(g, frac);
    assert g + ['.'] + frac == g + tail;
    RemoveCommasOfGroups(whole);
    RemoveAllAppend(g, tail, ',');
    RemoveAllNoChar(tail, ',');
  }

  /** Digits and commas, a point and one or two digits make a display amount. */
  lemma DecimalDisplay(g: string, frac: string)
    requires forall i :: 0 <= i < |g| ==> IsDigit(g[i]) || g[i] == ','
    requires NoChar(g, '.') && AllDigits(frac) && 0 < |frac| <= 2
    ensures IsDisplayAmount(g + ['.'] + frac)
  {
    var tail: string := ['.'] + frac;
    var r := g + tail;
    assert r == g + ['.'] + frac;
    CountNoChar(g, '.');
    CountAppend(g, tail, '.');
    CountNoChar(frac, '.');
    CountAppend(['.'], frac, '.');
    var point: string := ['.'];
    assert Count(point, '.') == 1 by {
      assert point[1..] == [];
    }
    assert Count(r, '.') == 1;
    assert forall i :: 0 <= i < |g| ==> r[i] == g[i];
    assert forall i :: |g| < i < |r| ==> r[i] == frac[i - |g| - 1];
    assert r[|r| - 1] == frac[|frac| - 1];
  }

  /** The formatter renders digits, and digits with a point and decimals, in display form. */
  lemma FormatOfParts(whole: string, frac: string)
    requires AllDigits(whole) && AllDigits(frac)
    ensures FormatAmountForDisplay(whole) == Render(whole, [])
    ensures FormatAmountForDisplay(whole + "." + frac) == Render(whole, Take(frac, 2))
  {
    FormatOfWhole(whole);
    FormatOfDecimal(whole, frac);
  }

  lemma FormatOfWhole(whole: string)
    requires AllDigits(whole)
    ensures FormatAmountForDisplay(whole) == Render(whole, [])
  {
    InsertCommasGroups(whole);
    if whole != [] {
      KeepAmountCharsOfAmount(whole);
      CountNoChar(whole, '.');
      SplitNoSep(whole, '.');
    }
  }

  lemma FormatOfDecimal(whole: string, frac: string)
    requires AllDigits(whole) && AllDigits(frac)
    ensures FormatAmountForDisplay(whole + "." + frac) == Render(whole, Take(frac, 2))
  {
    InsertCommasGroups(whole);
    var s := whole + "." + frac;
    assert AmountChars(s);
    KeepAmountCharsOfAmount(s);
    SplitOneSep(whole, frac, '.');
  }

  /** Whatever it is given, the formatter produces the display form of some digits and at most two decimals. */
  lemma FormatIsRender(value: string)
    ensures exists whole, frac ::
              (AllDigits(whole) && AllDigits(frac) && |frac| <= 2
               && FormatAmountForDisplay(value) == Render(whole, frac))
  {
    if value == [] {
      assert FormatAmountForDisplay(value) == Render([], []);
    } else {
      var parts := IntAndDecimals(KeepAmountChars(value));
      var whole, dec := parts.0, parts.1;
      var frac := Take(dec, 2);
      assert FormatAmountForDisplay(value) == Render(whole, frac) by {
        InsertCommasGroups(whole);
        assert dec == [] <==> frac == [];
      }
      assert AllDigits(frac);
    }
  }

  /** The formatter's output has only digits, commas and one point, with at most two decimals. */
  lemma FormatOutputShape(value: string)
    ensures IsDisplayAmount(FormatAmountForDisplay(value))
  {
    FormatIsRender(value);
    var whole, frac :| AllDigits(whole) && AllDigits(frac) && |frac| <= 2
      && FormatAmountForDisplay(value) == Render(whole, frac);
    RenderShape(whole, frac);
  }

  /**
   * The integer part is grouped by three from the right (`GroupDigits`), and
   * removing the commas gives the digits back.
   */
  lemma FormatGroupsDigits(whole: string)
    requires AllDigits(whole)
    ensures FormatAmountForDisplay(whole) == GroupDigits(whole)
    ensures RemoveAll(FormatAmountForDisplay(whole), ',') == whole
  {
    FormatOfParts(whole, []);
    RemoveCommasOfGroups(whole);
  }

  /** A point with nothing after it is dropped, and only the first two decimals are kept. */
  lemma FormatTrailingDot(whole: string, frac: string)
    requires AllDigits(whole) && AllDigits(frac)
    ensures FormatAmountForDisplay(whole + ".") == FormatAmountForDisplay(whole)
    ensures |frac| > 2 ==> FormatAmountForDisplay(whole + "." + frac) == Render(whole, frac[..2])
  {
    FormatOfParts(whole, []);
    FormatOfParts(whole, frac);
    assert whole + "." == whole + "." + [];
  }

  // ---------------------------------------------------------------------
  // Keyboard input

  /** The handler's output is the display form of some digits and at most two decimals. */
  lemma HandleIsRender(nextValue: string)
    ensures exists whole, frac ::
              (AllDigits(whole) && AllDigits(frac) && |frac| <= 2
               && HandleAmountInputChange(nextValue) == Render(whole, frac))
  {
    var s := KeepAmountChars(nextValue);
    var allowed := FirstDotOnly(s);
    FirstDotOnlyShape(s);
    SplitDigits(allowed);
    var parts := Split(allowed, '.');
    var w := parts[0];
    assert AllDigits(w);
    if |parts| == 1 {
      FormatOfParts(w, []);
      assert HandleAmountInputChange(nextValue) == Render(w, []);
    } else {
      var t := Take(parts[1], 2);
      assert AllDigits(parts[1]);
      var combined := w + "." + t;
      if w == [] && t == [] {
        assert combined == ".";
        FormatOfParts("0", []);
        assert HandleAmountInputChange(nextValue) == Render("0", []);
      } else {
        assert |combined| == |w| + 1 + |t|;
        assert AllDigits(t);
        FormatOfParts(w, t);
        assert Take(t, 2) == t;
        assert HandleAmountInputChange(nextValue) == Render(w, t);
      }
    }
  }

  /**
   * The handler's output contains only digits, commas and at most one point,
   * with at most two decimals and no point at the end.
   */
  lemma HandleOutputShape(nextValue: string)
    ensures IsDisplayAmount(HandleAmountInputChange(nextValue))
  {
    HandleIsRender(nextValue);
    var whole, frac :| AllDigits(whole) && AllDigits(frac) && |frac| <= 2
      && HandleAmountInputChange(nextValue) == Render(whole, frac);
    RenderShape(whole, frac);
  }

  /** A lone point becomes `0`. */
  lemma HandleLoneDot()
    ensures HandleAmountInputChange(".") == "0"
  {
    var s := KeepAmountChars(".");
    assert s == ['.'] + KeepAmountChars([]);
    CountNoChar([], '.');
    SplitOneSep([], [], '.');
    assert [] + ['.'] + [] == ".";
    FormatOfParts("0", []);
    assert GroupDigits("0") == "0";
  }

  /** The handler leaves every display form it can produce as it is. */
  lemma HandleRender(whole: string, frac: string)
    requires AllDigits(whole) && AllDigits(frac) && |frac| <= 2
    ensures HandleAmountInputChange(Render(whole, frac)) == Render(whole, frac)
  {
    if frac == [] {
      HandleRenderWhole(whole);
    } else {
      HandleRenderDecimal(whole, frac);
    }
  }

  lemma HandleRenderWhole(whole: string)
    requires AllDigits(whole)
    ensures HandleAmountInputChange(Render(whole, [])) == Render(whole, [])
  {
    var shown := Render(whole, []);
    assert shown == GroupDigits(whole) + [];
    KeepAmountCharsAppend(GroupDigits(whole), []);
    KeepAmountCharsOfGroups(whole);
    assert KeepAmountChars(shown) == whole;
    CountNoChar(whole, '.');
    assert FirstDotOnly(whole) == whole;
    SplitNoSep(whole, '.');
    FormatOfParts(whole, []);
  }

  lemma HandleRenderDecimal(whole: string, frac: string)
    requires AllDigits(whole) && AllDigits(frac) && 0 < |frac| <= 2
    ensures HandleAmountInputChange(Render(whole, frac)) == Render(whole, frac)
  {
    var g := GroupDigits(whole);
    var tail: string := "." + frac;
    var s := whole + "." + frac;
    assert Render(whole, frac) == g + tail;
    KeepAmountCharsAppend(g, tail);
    KeepAmountCharsOfGroups(whole);
    assert AmountChars(tail);
    KeepAmountCharsOfAmount(tail);
    assert whole + tail == s;
    assert KeepAmountChars(Render(whole, frac)) == s;
    CountNoChar(whole, '.');
    CountNoChar(frac, '.');
    CountAppend(whole + ".", frac, '.');
    CountAppend(whole, ".", '.');
    assert FirstDotOnly(s) == s;
    SplitOneSep(whole, frac, '.');
    assert Take(frac, 2) == frac;
    assert s != ".";
    FormatOfParts(whole, frac);
  }

  /** Applying the handler to its own output gives the same text. */
  lemma HandleIdempotent(nextValue: string)
    ensures HandleAmountInputChange(HandleAmountInputChange(nextValue)) == HandleAmountInputChange(nextValue)
  {
    HandleIsRender(nextValue);
    var whole, frac :| AllDigits(whole) && AllDigits(frac) && |frac| <= 2
      && HandleAmountInputChange(nextValue) == Render(whole, frac);
    HandleRender(whole, frac);
  }

  // ---------------------------------------------------------------------
  // Reading the display text back

  /** Empty or blank text reads as 0. */
  lemma ParseBlank(display: string)
    requires forall i :: 0 <= i < |display| ==> IsSpace(display[i])
    ensures ParseAmountFromDisplay(display) == 0.0
  {
    TrimAllSpace(display);
  }

  /**
   * No number at the start of `t`: after an optional sign comes neither a
   * digit nor a point followed by a digit.
   */
  predicate NoLeadingNumber(t: string)
  {
    var u := Unsigned(t);
    (u == [] || !IsDigit(u[0])) && !(|u| >= 2 && u[0] == '.' && IsDigit(u[1]))
  }

  lemma TrimNotSpaceFirst(s: string)
    ensures Trim(s) == [] || !IsSpace(Trim(s)[0])
  {
    if Trim(s) != [] {
      assert Trim(s)[0] == TrimStart(s)[0];
    }
  }

  /** Text whose trimmed, comma-free form does not start with a number reads as 0. */
  lemma ParseUnreadable(display: string)
    requires NoLeadingNumber(Trim(RemoveAll(display, ',')))
    ensures ParseAmountFromDisplay(display) == 0.0
  {
    if display != [] && Trim(display) != [] {
      var cleaned := Trim(RemoveAll(display, ','));
      TrimNotSpaceFirst(RemoveAll(display, ','));
      NumberPrefixOfTrimmed(cleaned);
      var u := Unsigned(cleaned);
      assert LeadingDigits(u) == [];
      if u != [] && u[0] == '.' {
        assert LeadingDigits(u[1..]) == [];
      }
    }
  }

  /** Non-blank text whose trimmed, comma-free form starts with a number reads as that number. */
  lemma ParseReadable(display: string)
    requires Trim(display) != []
    requires !NoLeadingNumber(Trim(RemoveAll(display, ',')))
    ensures var n := ParseFloat(Trim(RemoveAll(display, ',')));
      n.Finite? && ParseAmountFromDisplay(display) == n.value
  {
    var cleaned := Trim(RemoveAll(display, ','));
    TrimNotSpaceFirst(RemoveAll(display, ','));
    NumberPrefixOfTrimmed(cleaned);
    var u := Unsigned(cleaned);
    if u != [] && IsDigit(u[0]) {
      assert LeadingDigits(u) != [];
    } else {
      assert LeadingDigits(u) == [];
      assert u[|LeadingDigits(u)|..] == u;
      assert LeadingDigits(u[1..]) != [];
    }
  }

  /** The display form with its commas removed: digits, then a point and the decimals if there are any. */
  function Plain(whole: string, frac: string): string
  {
    whole + (if frac == [] then [] else "." + frac)
  }

  /** The comma-free text of an amount is read by `parseFloat` as its value. */
  lemma ParsePlain(whole: string, frac: string)
    requires AllDigits(whole) && AllDigits(frac) && (whole != [] || frac != [])
    ensures Trim(Plain(whole, frac)) == Plain(whole, frac)
    ensures ParseFloat(Plain(whole, frac)) == Finite(DecimalValue(whole, frac))
  {
    var plain := Plain(whole, frac);
    if frac == [] {
      assert plain == whole;
      TrimNoSpace(whole);
      ParseFloatOfDigits(whole);
    } else {
      assert plain[..|whole|] == whole && plain[|whole|] == '.' && plain[|whole| + 1..] == frac;
      assert !IsSpace(plain[0]) by {
        if whole == [] {
          assert plain[0] == '.';
        } else {
          assert plain[0] == whole[0];
        }
      }
      assert plain[|plain| - 1] == frac[|frac| - 1];
      TrimNoSpace(plain);
      ParseFloatOfPoint(plain, |whole|);
    }
  }

  /** A non-empty display form is not blank. */
  lemma RenderNotBlank(whole: string, frac: string)
    requires AllDigits(whole) && AllDigits(frac) && |frac| <= 2
    requires whole != [] || frac != []
    ensures Render(whole, frac) != [] && Trim(Render(whole, frac)) != []
  {
    var r := Render(whole, frac);
    assert |r| >= |whole| + |frac|;
    RenderShape(whole, frac);
    if Trim(r) == [] {
      TrimEmptyAllSpace(r);
      assert false;
    }
  }

  /** A display form reads back as the value of its digits and decimals. */
  lemma ParseRender(whole: string, frac: string)
    requires AllDigits(whole) && AllDigits(frac) && |frac| <= 2
    ensures ParseAmountFromDisplay(Render(whole, frac)) == DecimalValue(whole, frac)
  {
    if whole == [] && frac == [] {
      assert Render(whole, frac) == [];
    } else {
      RenderNotBlank(whole, frac);
      RenderShape(whole, frac);
      ParsePlain(whole, frac);
    }
  }

  /**
   * Formatting digits with an optional point and at most two decimals and
   * reading the result back gives the value of the text.
   */
  lemma ParseFormatRoundTrip(whole: string, frac: string)
    requires AllDigits(whole) && AllDigits(frac) && |frac| <= 2
    ensures ParseAmountFromDisplay(FormatAmountForDisplay(whole)) == DecimalValue(whole, [])
    ensures ParseAmountFromDisplay(FormatAmountForDisplay(whole + "." + frac)) == DecimalValue(whole, frac)
  {
    FormatOfParts(whole, frac);
    assert Take(frac, 2) == frac;
    ParseRender(whole, []);
    ParseRender(whole, frac);
  }

  /** Whatever is typed, the amount read from the field is never negative. */
  lemma HandleParseNonNegative(nextValue: string)
    ensures ParseAmountFromDisplay(HandleAmountInputChange(nextValue)) >= 0.0
  {
    HandleIsRender(nextValue);
    var whole, frac :| AllDigits(whole) && AllDigits(frac) && |frac| <= 2
      && HandleAmountInputChange(nextValue) == Render(whole, frac);
    ParseRender(whole, frac);
  }

  // ---------------------------------------------------------------------
  // The amount fields' `onChange`

  /**
   * The `onChange` of the transaction and savings amount fields as wired:
   * `handleAmountInputChange(current, typed)` passes the field's current text
   * as the only parameter the handler has, so the typed text is dropped.
   */
  function AmountFieldAsWritten(current: string, typed: string): (r: string)
  {
    HandleAmountInputChange(current)
  }

  lemma HandleEmpty()
    ensures HandleAmountInputChange("") == ""
  {
    assert KeepAmountChars("") == "";
    CountNoChar("", '.');
    assert Split("", '.') == [""];
  }

  /**
   * As wired, an empty field stays empty whatever is typed, and a field
   * showing a handler output keeps showing it.
   */
  lemma AmountFieldAsWrittenIgnoresTyping(previous: string, typed: string)
    ensures AmountFieldAsWritten("", typed) == ""
    ensures AmountFieldAsWritten(HandleAmountInputChange(previous), typed) == HandleAmountInputChange(previous)
  {
    HandleEmpty();
    HandleIdempotent(previous);
  }

  /** The amount fields' `onChange` as intended: the typed text is sanitised and shown. */
  function AmountField(typed: string): (r: string)
  {
    HandleAmountInputChange(typed)
  }

  /**
   * Typing an amount (digits, then optionally a point and up to two
   * decimals) shows its display form, which reads back as its value.
   */
  lemma AmountFieldReadsBack(whole: string, frac: string)
    requires AllDigits(whole) && AllDigits(frac) && |frac| <= 2
    ensures AmountField(Plain(whole, frac)) == Render(whole, frac)
    ensures ParseAmountFromDisplay(AmountField(Plain(whole, frac))) == DecimalValue(whole, frac)
  {
    var tail: string := if frac == [] then [] else "." + frac;
    assert AmountChars(Plain(whole, frac)) by {
      assert AmountChars(tail);
    }
    KeepAmountCharsOfAmount(Plain(whole, frac));
    KeepAmountCharsAppend(GroupDigits(whole), tail);
    KeepAmountCharsOfGroups(whole);
    KeepAmountCharsOfAmount(tail);
    assert KeepAmountChars(Render(whole, frac)) == Plain(whole, frac);
    HandleRender(whole, frac);
    ParseRender(whole, frac);
  }
}
