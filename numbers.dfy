/**
 * JavaScript numbers as the forms read them: the result of `Number(text)`
 * and of `parseFloat(text)`, a finite value or NaN.  Both conversions are
 * modelled over decimal text (an optional sign, digits, an optional point
 * and digits) and ASCII white space.
 */
module JsNum {
  import opened Text

  datatype Num = Finite(value: real) | NaN

  /** `!n || n <= 0` in JavaScript: zero, negative and NaN all count as "not a positive amount". */
  predicate IsPositive(n: Num) { n.Finite? && n.value > 0.0 }

  function DigitValue(c: char): nat
    requires IsDigit(c)
  {
    c as int - '0' as int
  }

  /** The value of a string of decimal digits ("" is 0). */
  function DigitsValue(d: string): nat
    requires AllDigits(d)
  {
    if d == [] then 0 else DigitsValue(d[..|d| - 1]) * 10 + DigitValue(d[|d| - 1])
  }

  function Pow10(n: nat): (r: nat)
    ensures r >= 1
  {
    if n == 0 then 1 else 10 * Pow10(n - 1)
  }

  /** The value written `int.frac`. */
  function DecimalValue(whole: string, frac: string): (r: real)
    requires AllDigits(whole) && AllDigits(frac)
    ensures r >= 0.0
  {
    DigitsValue(whole) as real + DigitsValue(frac) as real / Pow10(|frac|) as real
  }

  /** The longest prefix of `s` made of digits. */
  function LeadingDigits(s: string): (d: string)
    ensures AllDigits(d) && |d| <= |s| && d == s[..|d|]
    ensures |d| < |s| ==> !IsDigit(s[|d|])
  {
    if s != [] && IsDigit(s[0]) then [s[0]] + LeadingDigits(s[1..]) else []
  }

  lemma {:induction false} LeadingDigitsOfDigits(d: string, rest: string)
    requires AllDigits(d)
    requires rest == [] || !IsDigit(rest[0])
    ensures LeadingDigits(d + rest) == d
  {
    if d != [] {
      assert (d + rest)[1..] == d[1..] + rest;
      LeadingDigitsOfDigits(d[1..], rest);
      assert [d[0]] + d[1..] == d;
    } else {
      assert d + rest == rest;
    }
  }

  predicate IsSign(c: char) { c == '+' || c == '-' }

  function SignOf(s: string): real
  {
    if s != [] && s[0] == '-' then -1.0 else 1.0
  }

  function Unsigned(s: string): (r: string)
    ensures |r| <= |s|
  {
    if s != [] && IsSign(s[0]) then s[1..] else s
  }

  /** Applies the sign of the text to an unsigned result. */
  function Signed(t: string, n: Num): Num
  {
    if n.NaN? then NaN else Finite(SignOf(t) * n.value)
  }

  /** The longest prefix of `body` of the form `digits [. digits?] | . digits`, as a number. */
  function DecimalPrefix(body: string): Num
  {
    var whole := LeadingDigits(body);
    var after := body[|whole|..];
    var frac := if after != [] && after[0] == '.' then LeadingDigits(after[1..]) else [];
    if whole == [] && frac == [] then NaN else Finite(DecimalValue(whole, frac))
  }

  /** `body` as a whole is `digits [. digits?] | . digits`, as a number. */
  function DecimalText(body: string): Num
  {
    var whole := LeadingDigits(body);
    var after := body[|whole|..];
    if after == [] then
      (if whole == [] then NaN else Finite(DecimalValue(whole, [])))
    else if after[0] == '.' && AllDigits(after[1..]) && (whole != [] || |after| > 1) then
      Finite(DecimalValue(whole, after[1..]))
    else NaN
  }

  /**
   * `parseFloat(s)`: leading white space skipped, then the longest prefix of
   * the form `[+-]? (digits [. digits?] | . digits)`; NaN when there is none.
   */
  function ParseFloat(s: string): Num
  {
    var t := TrimStart(s);
    Signed(t, DecimalPrefix(Unsigned(t)))
  }

  /**
   * `Number(s)`: the whole trimmed text must be `[+-]? (digits [. digits?] | . digits)`;
   * the empty (or blank) text is 0; anything else is NaN.
   */
  function JsNumber(s: string): Num
  {
    var t := Trim(s);
    if t == [] then Finite(0.0) else Signed(t, DecimalText(Unsigned(t)))
  }

  lemma NumberOfTrimmed(s: string)
    requires Trim(s) == s && s != []
    ensures JsNumber(s) == Signed(s, DecimalText(Unsigned(s)))
  {
  }

  lemma DecimalTextOfDigits(whole: string, frac: string)
    requires AllDigits(whole) && AllDigits(frac) && whole != []
    ensures DecimalText(whole) == Finite(DecimalValue(whole, []))
    ensures DecimalText(whole + "." + frac) == Finite(DecimalValue(whole, frac))
  {
    LeadingDigitsOfDigits(whole, []);
    assert whole + [] == whole;
    var s := whole + "." + frac;
    LeadingDigitsOfDigits(whole, "." + frac);
    assert s == whole + ("." + frac);
    assert s[|whole|..] == "." + frac;
    assert ("." + frac)[1..] == frac;
  }

  /** `Number` of plain digits, with an optional fraction, is their decimal value. */
  lemma NumberOfDecimal(whole: string, frac: string)
    requires AllDigits(whole) && AllDigits(frac) && whole != []
    ensures JsNumber(whole) == Finite(DecimalValue(whole, []))
    ensures JsNumber(whole + "." + frac) == Finite(DecimalValue(whole, frac))
  {
    DecimalTextOfDigits(whole, frac);
    TrimNoSpace(whole);
    NumberOfTrimmed(whole);
    assert Unsigned(whole) == whole;
    var s := whole + "." + frac;
    assert s[0] == whole[0];
    if frac == [] {
      assert s[|s| - 1] == '.';
    } else {
      assert s[|s| - 1] == frac[|frac| - 1];
    }
    TrimNoSpace(s);
    NumberOfTrimmed(s);
    assert Unsigned(s) == s;
  }

  /** A minus sign before digits makes `Number` negative: `-5` is rejected as negative, not as NaN. */
  lemma NumberOfNegative(s: string)
    requires |s| >= 2 && s[0] == '-' && AllDigits(s[1..])
    ensures JsNumber(s) == Finite(-DecimalValue(s[1..], []))
  {
    var whole := s[1..];
    DecimalTextOfDigits(whole, []);
    assert s[|s| - 1] == whole[|whole| - 1];
    TrimNoSpace(s);
    NumberOfTrimmed(s);
    assert Unsigned(s) == whole;
  }

  lemma NumberPrefixOfTrimmed(s: string)
    requires s == [] || !IsSpace(s[0])
    ensures ParseFloat(s) == Signed(s, DecimalPrefix(Unsigned(s)))
  {
    TrimStartNoSpace(s);
  }

  /** `parseFloat` reads a string of digits as its decimal value. */
  lemma ParseFloatOfDigits(whole: string)
    requires AllDigits(whole) && whole != []
    ensures ParseFloat(whole) == Finite(DecimalValue(whole, []))
  {
    NumberPrefixOfTrimmed(whole);
    assert Unsigned(whole) == whole;
    LeadingDigitsOfDigits(whole, []);
    assert whole + [] == whole;
  }

  /** `parseFloat` reads digits, a point and digits (not the point alone) as their decimal value. */
  lemma ParseFloatOfPoint(s: string, k: nat)
    requires k < |s| && s[k] == '.' && |s| > 1
    requires AllDigits(s[..k]) && AllDigits(s[k + 1..])
    ensures ParseFloat(s) == Finite(DecimalValue(s[..k], s[k + 1..]))
  {
    assert !IsSpace(s[0]) && !IsSign(s[0]) by {
      if k == 0 { assert s[0] == '.'; } else { assert s[0] == s[..k][0]; }
    }
    NumberPrefixOfTrimmed(s);
    assert Unsigned(s) == s;
    DecimalPrefixOfPoint(s, k);
    assert SignOf(s) == 1.0;
  }

  lemma DecimalPrefixOfPoint(s: string, k: nat)
    requires k < |s| && s[k] == '.' && |s| > 1
    requires AllDigits(s[..k]) && AllDigits(s[k + 1..])
    ensures DecimalPrefix(s) == Finite(DecimalValue(s[..k], s[k + 1..]))
  {
    var whole, frac := s[..k], s[k + 1..];
    assert s == whole + s[k..];
    LeadingDigitsOfDigits(whole, s[k..]);
    assert s[|whole|..] == s[k..];
    assert s[k..][1..] == frac;
    LeadingDigitsOfDigits(frac, []);
    assert frac + [] == frac;
  }

  /** Without a minus sign, `Number` gives NaN or a value that is not negative. */
  lemma NumberNoMinus(s: string)
    requires NoChar(s, '-')
    ensures JsNumber(s).NaN? || JsNumber(s).value >= 0.0
  {
    var t := Trim(s);
    if t != [] {
      var ts := TrimStart(s);
      TrimStartSuffix(s);
      assert t == ts[..|t|];
      assert t[0] == s[|s| - |ts|];
      assert SignOf(t) == 1.0;
    }
  }
}
