/**
 * The settings page: its own comma formatter for the income fields, the
 * validation done before saving, and the reading of the stored preferences.
 */
module SettingsPage {
  import opened Text
  import opened JsNum
  import opened Grouping
  import opened Wrappers
  import opened Prefs
  import AmountInput
  import opened UserSettingsService

  /** `formatWithCommas`: the text before the point gets thousands commas; anything odd is left as typed. */
  function FormatWithCommas(val: string): string
  {
    if val == [] then []
    else
      var clean := RemoveAll(val, ',');
      if clean == "." || clean == [] then clean
      else
        var parts := Split(clean, '.');
        if |parts| > 2 then val
        else Join([InsertCommas(parts[0])] + parts[1..], '.')
  }

  /** `parseCommas`. */
  function ParseCommas(val: string): (r: string)
    ensures NoChar(r, ',')
  {
    RemoveAll(val, ',')
  }

  predicate IsFieldChar(c: char) { IsDigit(c) || c == '.' || c == ',' }

  /** `value.replace(/[^0-9.,]/g, '')`. */
  function KeepFieldChars(s: string): (r: string)
    ensures forall i :: 0 <= i < |r| ==> IsFieldChar(r[i])
  {
    if s == [] then [] else (if IsFieldChar(s[0]) then [s[0]] else []) + KeepFieldChars(s[1..])
  }

  /** The new text of the gross-income or red-line field after a keystroke. */
  function OnFieldChange(typed: string): string
  {
    FormatWithCommas(KeepFieldChars(typed))
  }

  /** The number a field is saved as: an empty field is `null`, anything else `Number(parseCommas(text))`. */
  function FieldNumber(text: string): Option<Num>
  {
    if text == [] then None else Some(JsNumber(ParseCommas(text)))
  }

  /** `n != null && n < 0`: NaN is not below 0. */
  predicate IsNegative(n: Option<Num>)
  {
    n.Some? && n.value.Finite? && n.value.value < 0.0
  }

  /** The error `handleSave` reports before saving, if any: the income is checked first. */
  function SaveError(grossIncome: string, redLineAmount: string): (e: Option<string>)
    ensures e == None <==> !IsNegative(FieldNumber(grossIncome)) && !IsNegative(FieldNumber(redLineAmount))
    ensures IsNegative(FieldNumber(grossIncome)) ==> e == Some("Gross income cannot be negative.")
    ensures !IsNegative(FieldNumber(grossIncome)) && IsNegative(FieldNumber(redLineAmount)) ==>
              e == Some("Red line amount cannot be negative.")
  {
    if IsNegative(FieldNumber(grossIncome)) then Some("Gross income cannot be negative.")
    else if IsNegative(FieldNumber(redLineAmount)) then Some("Red line amount cannot be negative.")
    else None
  }

  // ---------------------------------------------------------------------
  // The formatter

  /** The formatter only ever adds or keeps commas: without its commas the output is the input without its commas. */
  lemma FormatKeepsText(val: string)
    ensures ParseCommas(FormatWithCommas(val)) == ParseCommas(val)
  {
    if val != [] {
      var clean := RemoveAll(val, ',');
      if clean != "." && clean != [] {
        var parts := Split(clean, '.');
        if |parts| == 1 {
          GroupedWholeKeepsText(clean);
        } else if |parts| == 2 {
          GroupedDecimalKeepsText(clean);
        }
      }
    }
  }

  /** Text without a point: grouping its digits adds only commas. */
  lemma GroupedWholeKeepsText(clean: string)
    requires NoChar(clean, ',') && |Split(clean, '.')| == 1
    ensures RemoveAll(Join([InsertCommas(Split(clean, '.')[0])] + Split(clean, '.')[1..], '.'), ',') == clean
  {
    var parts := Split(clean, '.');
    RemoveCommasInsert(parts[0]);
    assert parts[0] == clean by {
      JoinSplit(clean, '.');
    }
    RemoveAllNoChar(clean, ',');
    assert [InsertCommas(parts[0])] + parts[1..] == [InsertCommas(parts[0])];
  }

  /** Text with one point: grouping the digits before it adds only commas. */
  lemma GroupedDecimalKeepsText(clean: string)
    requires NoChar(clean, ',') && |Split(clean, '.')| == 2
    ensures RemoveAll(Join([InsertCommas(Split(clean, '.')[0])] + Split(clean, '.')[1..], '.'), ',') == clean
  {
    var parts := Split(clean, '.');
    var whole, frac := parts[0], parts[1];
    JoinSplit(clean, '.');
    assert parts == [whole, frac];
    assert clean == whole + "." + frac;
    assert [InsertCommas(whole)] + parts[1..] == [InsertCommas(whole), frac];
    assert NoChar(whole, ',') by {
      assert forall i :: 0 <= i < |whole| ==> whole[i] == clean[i];
    }
    assert NoChar(frac, ',') by {
      assert forall i :: 0 <= i < |frac| ==> frac[i] == clean[|whole| + 1 + i];
    }
    GroupedPairKeepsText(whole, frac);
  }

  lemma GroupedPairKeepsText(whole: string, frac: string)
    requires NoChar(whole, ',') && NoChar(frac, ',')
    ensures RemoveAll(Join([InsertCommas(whole), frac], '.'), ',') == whole + "." + frac
  {
    var grouped := InsertCommas(whole);
    assert [grouped, frac][1..] == [frac];
    assert Join([grouped, frac], '.') == grouped + "." + frac;
    RemoveCommasInsert(whole);
    RemoveAllNoChar(whole, ',');
    RemoveAllNoChar(frac, ',');
    assert RemoveAll(".", ',') == ".";
    RemoveAllAppend(grouped, ".", ',');
    RemoveAllAppend(grouped + ".", frac, ',');
  }

  /** For text without commas, removing the commas of the formatted text gives the text back. */
  lemma ParseFormatRoundTrip(s: string)
    requires NoChar(s, ',')
    ensures ParseCommas(FormatWithCommas(s)) == s
  {
    FormatKeepsText(s);
    RemoveAllNoChar(s, ',');
  }

  /** An empty field stays empty. */
  lemma FormatEmpty()
    ensures FormatWithCommas([]) == [] && FieldNumber([]) == None
  {
  }

  /** Text with more than one point (once the commas are gone) is returned exactly as given. */
  lemma FormatManyPoints(val: string)
    requires Count(RemoveAll(val, ','), '.') > 1
    ensures FormatWithCommas(val) == val
  {
  }

  /** With one point, the text after it is kept whole (no cut to two decimals) and only the part before it is grouped. */
  lemma FormatKeepsDecimals(whole: string, frac: string)
    requires NoChar(whole, '.') && NoChar(whole, ',') && NoChar(frac, '.') && NoChar(frac, ',')
    requires whole != [] || frac != []
    ensures FormatWithCommas(whole + "." + frac) == InsertCommas(whole) + "." + frac
  {
    var s := whole + "." + frac;
    assert NoChar(s, ',');
    RemoveAllNoChar(s, ',');
    SplitOneSep(whole, frac, '.');
    assert |s| >= 2;
    var head := InsertCommas(whole);
    assert [head] + [whole, frac][1..] == [head, frac];
    assert Join([head, frac], '.') == head + "." + frac;
  }

  /** Digits without a point are grouped by three from the right. */
  lemma FormatGroupsDigits(whole: string)
    requires AllDigits(whole) && whole != []
    ensures FormatWithCommas(whole) == GroupDigits(whole)
  {
    assert NoChar(whole, ',') && NoChar(whole, '.');
    RemoveAllNoChar(whole, ',');
    SplitNoSep(whole, '.');
    InsertCommasGroups(whole);
    assert whole != "." by {
      assert IsDigit(whole[0]);
    }
  }

  /** Applying the formatter to its own output changes nothing, whatever the text. */
  lemma FormatIdempotent(val: string)
    ensures FormatWithCommas(FormatWithCommas(val)) == FormatWithCommas(val)
  {
    if val != [] {
      var v := FormatWithCommas(val);
      var clean := RemoveAll(val, ',');
      FormatKeepsText(val);
      assert RemoveAll(v, ',') == clean;
      if clean == "." || clean == [] {
        assert v == clean;
        RemoveAllNoChar(clean, ',');
      } else if |Split(clean, '.')| <= 2 {
        assert v != [];
      }
    }
  }

  /** The two formatters of the application agree on digits and on one or two decimals. */
  lemma FormattersAgree(whole: string, frac: string)
    requires AllDigits(whole) && AllDigits(frac) && whole != []
    ensures FormatWithCommas(whole) == AmountInput.FormatAmountForDisplay(whole)
    ensures frac != [] && |frac| <= 2 ==>
              FormatWithCommas(whole + "." + frac) == AmountInput.FormatAmountForDisplay(whole + "." + frac)
  {
    FormatGroupsDigits(whole);
    AmountInput.FormatOfParts(whole, frac);
    InsertCommasGroups(whole);
    if frac != [] && |frac| <= 2 {
      assert NoChar(whole, ',') && NoChar(whole, '.') && NoChar(frac, ',') && NoChar(frac, '.');
      FormatKeepsDecimals(whole, frac);
      assert Take(frac, 2) == frac;
    }
  }

  /**
   * They differ after the point: this formatter keeps a point with nothing
   * after it, and keeps every decimal, where the amount formatter drops the
   * point and keeps two decimals.
   */
  lemma FormattersDiffer(whole: string, frac: string)
    requires AllDigits(whole) && AllDigits(frac) && whole != []
    ensures FormatWithCommas(whole + ".") == GroupDigits(whole) + "."
    ensures AmountInput.FormatAmountForDisplay(whole + ".") == GroupDigits(whole)
    ensures FormatWithCommas(whole + "." + frac) == GroupDigits(whole) + "." + frac
    ensures AmountInput.FormatAmountForDisplay(whole + "." + frac) == AmountInput.Render(whole, Take(frac, 2))
  {
    InsertCommasGroups(whole);
    assert NoChar(whole, ',') && NoChar(whole, '.') && NoChar(frac, ',') && NoChar(frac, '.');
    FormatKeepsDecimals(whole, frac);
    FormatKeepsDecimals(whole, []);
    assert whole + "." + [] == whole + ".";
    AmountInput.FormatTrailingDot(whole, frac);
    AmountInput.FormatOfParts(whole, frac);
  }

  /** Every character of the output other than a comma was in the input. */
  lemma FormatNoNewChars(val: string, x: char)
    requires x != ',' && x in FormatWithCommas(val)
    ensures x in val
  {
    var clean := RemoveAll(val, ',');
    if clean == "." || clean == [] {
      RemoveAllChars(val, ',', x);
    } else {
      var parts := Split(clean, '.');
      if |parts| <= 2 {
        JoinSplit(clean, '.');
        var head := InsertCommas(parts[0]);
        var out := Join([head] + parts[1..], '.');
        if |parts| == 1 {
          assert out == head;
          SpliceChars(parts[0], 0, x);
          assert parts[0][0..] == parts[0] == clean;
        } else {
          assert Join(parts[1..], '.') == parts[1];
          assert out == head + "." + parts[1];
          assert clean == parts[0] + "." + parts[1];
          if x in head {
            SpliceChars(parts[0], 0, x);
            assert parts[0][0..] == parts[0];
            assert x in clean;
          } else {
            assert x in clean;
          }
        }
        RemoveAllChars(val, ',', x);
      }
    }
  }

  /** Text typed into a field never reads as negative, so the negative-amount errors only fire for loaded values. */
  lemma TypedNeverNegative(typed: string)
    ensures !IsNegative(FieldNumber(OnFieldChange(typed)))
  {
    var kept := KeepFieldChars(typed);
    var shown := OnFieldChange(typed);
    var cleaned := ParseCommas(shown);
    if '-' in cleaned {
      RemoveAllChars(shown, ',', '-');
      FormatNoNewChars(kept, '-');
      assert false;
    }
    NumberNoMinus(cleaned);
  }

  // ---------------------------------------------------------------------
  // The page state

  class SettingsForm {
    var grossIncome: string
    var redLineAmount: string
    var currency: string
    var error: Option<string>
    var message: Option<string>
    var financialMessage: Option<string>
    var settings: Option<UserSettings>
    var dateFormat: Json
    var startOfWeek: Json
    var emailReminders: bool
    var enableNotifications: bool

    /** The initial state of the page. */
    constructor()
      ensures grossIncome == [] && redLineAmount == [] && currency == "USD"
      ensures error == None && message == None && financialMessage == None && settings == None
      ensures dateFormat == JString("MM/DD") && startOfWeek == JString("sunday")
      ensures !emailReminders && enableNotifications
    {
      grossIncome, redLineAmount, currency := [], [], "USD";
      error, message, financialMessage, settings := None, None, None, None;
      dateFormat, startOfWeek := JString("MM/DD"), JString("sunday");
      emailReminders, enableNotifications := false, true;
    }

    method OnGrossIncomeChange(typed: string)
      modifies this
      ensures grossIncome == OnFieldChange(typed)
      ensures redLineAmount == old(redLineAmount) && error == old(error) && settings == old(settings)
    {
      grossIncome := FormatWithCommas(KeepFieldChars(typed));
    }

    method OnRedLineChange(typed: string)
      modifies this
      ensures redLineAmount == OnFieldChange(typed)
      ensures grossIncome == old(grossIncome) && error == old(error) && settings == old(settings)
    {
      redLineAmount := FormatWithCommas(KeepFieldChars(typed));
    }

    /**
     * `handleSave`: with no signed-in user nothing happens; a negative amount
     * is reported and nothing is saved; otherwise the upsert request is made
     * and its outcome (a parameter) is shown.
     */
    method HandleSave(signedIn: bool, outcome: Result<UserSettings>) returns (request: Option<UpsertInput>)
      modifies this
      ensures !signedIn ==> request == None && error == old(error) && settings == old(settings)
                            && financialMessage == old(financialMessage)
      ensures signedIn && SaveError(old(grossIncome), old(redLineAmount)).Some? ==>
                request == None && error == SaveError(old(grossIncome), old(redLineAmount))
                && settings == old(settings) && financialMessage == old(financialMessage)
      ensures signedIn && SaveError(old(grossIncome), old(redLineAmount)) == None ==>
                request == Some(UpsertInput(FieldNumber(old(grossIncome)), FieldNumber(old(redLineAmount)),
                                            old(currency), None))
      ensures signedIn && SaveError(old(grossIncome), old(redLineAmount)) == None && outcome.Ok? ==>
                settings == Some(outcome.value) && financialMessage == Some("Settings saved.") && error == None
      ensures signedIn && SaveError(old(grossIncome), old(redLineAmount)) == None && outcome.Err? ==>
                settings == old(settings) && financialMessage == old(financialMessage)
                && error == Some(outcome.message)
      ensures signedIn ==> message == None
      ensures grossIncome == old(grossIncome) && redLineAmount == old(redLineAmount) && currency == old(currency)
    {
      if !signedIn {
        return None;
      }
      error := None;
      message := None;
      var incomeNumber := if grossIncome != [] then Some(JsNumber(ParseCommas(grossIncome))) else None;
      var redLine := if redLineAmount != [] then Some(JsNumber(ParseCommas(redLineAmount))) else None;
      if incomeNumber.Some? && incomeNumber.value.Finite? && incomeNumber.value.value < 0.0 {
        error := Some("Gross income cannot be negative.");
        return None;
      }
      if redLine.Some? && redLine.value.Finite? && redLine.value.value < 0.0 {
        error := Some("Red line amount cannot be negative.");
        return None;
      }
      request := Some(UpsertInput(incomeNumber, redLine, currency, None));
      if outcome.Ok? {
        settings := Some(outcome.value);
        financialMessage := Some("Settings saved.");
      } else {
        error := Some(outcome.message);
      }
    }

    /**
     * The load effect.  `existing` is the outcome of reading the user's
     * settings row; `grossText` and `redText` are `String(...)` of its two
     * amounts, and `stored` is what local storage holds for the preferences.
     * A failure is reported and leaves the form as it was; a missing row
     * leaves the fields; the preferences are read only after a successful read.
     */
    method Load(existing: Result<Option<UserSettings>>, grossText: string, redText: string, stored: Stored)
      modifies this
      ensures existing.Err? ==>
                error == Some(existing.message) && settings == old(settings)
                && grossIncome == old(grossIncome) && redLineAmount == old(redLineAmount)
                && currency == old(currency) && dateFormat == old(dateFormat)
      ensures existing.Ok? && existing.value.None? ==>
                settings == old(settings) && grossIncome == old(grossIncome)
                && redLineAmount == old(redLineAmount) && currency == old(currency)
      ensures existing.Ok? && existing.value.Some? ==>
                var row := existing.value.value;
                settings == Some(row) && currency == row.currency
                && grossIncome == (if row.grossIncome.Some? then FormatWithCommas(grossText) else [])
                && redLineAmount == (if row.redLineAmount.Some? then FormatWithCommas(redText) else [])
      ensures (existing.Ok? && existing.value.Some? && existing.value.value.grossIncome.Some?
               && NoChar(grossText, ',')) ==> ParseCommas(grossIncome) == grossText
      ensures existing.Err? ==>
                startOfWeek == old(startOfWeek) && emailReminders == old(emailReminders)
                && enableNotifications == old(enableNotifications)
      ensures existing.Ok? ==>
                var d := Property(stored, "dateFormat");
                dateFormat == (if d.Value? && Truthy(d.v) then d.v else old(dateFormat))
      ensures existing.Ok? ==>
                var w := Property(stored, "startOfWeek");
                startOfWeek == (if w.Value? && Truthy(w.v) then w.v else old(startOfWeek))
      ensures existing.Ok? ==>
                var e := Property(stored, "emailReminders");
                emailReminders == (if e.Value? && e.v.JBool? then e.v.b else old(emailReminders))
      ensures existing.Ok? ==>
                var n := Property(stored, "enableNotifications");
                enableNotifications == (if n.Value? && n.v.JBool? then n.v.b else old(enableNotifications))
      ensures (stored == Malformed || stored == NothingStored) ==>
                dateFormat == old(dateFormat) && startOfWeek == old(startOfWeek)
                && emailReminders == old(emailReminders) && enableNotifications == old(enableNotifications)
      ensures existing.Ok? ==> error == old(error)
    {
      if existing.Err? {
        error := Some(existing.message);
        return;
      }
      if existing.value.Some? {
        var row := existing.value.value;
        settings := Some(row);
        currency := row.currency;
        grossIncome := if row.grossIncome.Some? then FormatWithCommas(grossText) else [];
        redLineAmount := if row.redLineAmount.Some? then FormatWithCommas(redText) else [];
        if row.grossIncome.Some? && NoChar(grossText, ',') {
          ParseFormatRoundTrip(grossText);
        }
      }
      LoadPreferences(stored);
    }

    /**
     * The preference part of the load effect: a field is taken from the
     * stored record only when present (`dateFormat`/`startOfWeek` when
     * truthy, the flags when boolean); unreadable text changes nothing.
     */
    method LoadPreferences(stored: Stored)
      modifies this
      ensures var d := Property(stored, "dateFormat");
        dateFormat == (if d.Value? && Truthy(d.v) then d.v else old(dateFormat))
      ensures var w := Property(stored, "startOfWeek");
        startOfWeek == (if w.Value? && Truthy(w.v) then w.v else old(startOfWeek))
      ensures var e := Property(stored, "emailReminders");
        emailReminders == (if e.Value? && e.v.JBool? then e.v.b else old(emailReminders))
      ensures var n := Property(stored, "enableNotifications");
        enableNotifications == (if n.Value? && n.v.JBool? then n.v.b else old(enableNotifications))
      ensures stored == Malformed || stored == NothingStored ==>
                dateFormat == old(dateFormat) && startOfWeek == old(startOfWeek)
                && emailReminders == old(emailReminders) && enableNotifications == old(enableNotifications)
      ensures grossIncome == old(grossIncome) && redLineAmount == old(redLineAmount)
              && error == old(error) && settings == old(settings) && currency == old(currency)
    {
      var d := Property(stored, "dateFormat");
      if d == Throws {
        return;
      }
      if d.Value? && Truthy(d.v) {
        dateFormat := d.v;
      }
      var w := Property(stored, "startOfWeek");
      if w.Value? && Truthy(w.v) {
        startOfWeek := w.v;
      }
      var e := Property(stored, "emailReminders");
      if e.Value? && e.v.JBool? {
        emailReminders := e.v.b;
      }
      var n := Property(stored, "enableNotifications");
      if n.Value? && n.v.JBool? {
        enableNotifications := n.v.b;
      }
    }
  }
}
