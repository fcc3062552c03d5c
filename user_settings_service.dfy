/**
 * The user-settings service: a per-user cache in front of the backend, and
 * an upsert that falls back to smaller payloads when the database reports a
 * missing column.  Each backend call is a given outcome.
 */
module UserSettingsService {
  import opened Text
  import opened JsNum
  import opened Wrappers

  datatype Theme = Light | Dark

  /** A `user_settings` row. */
  datatype UserSettings = UserSettings(
    id: string, userId: string, grossIncome: Option<Num>, redLineAmount: Option<Num>,
    currency: string, theme: Theme)

  /** The argument of `upsert`. */
  datatype UpsertInput = UpsertInput(
    grossIncome: Option<Num>, redLineAmount: Option<Num>, currency: string, theme: Option<Theme>)

  /** A value of an upsert payload field; a field set to `undefined` is still a key of the object. */
  datatype Field = FText(s: string) | FNumber(n: Num) | FNull | FUndefined

  type Payload = map<string, Field>

  function NumberField(n: Option<Num>): Field
  {
    if n.Some? then FNumber(n.value) else FNull
  }

  function ThemeField(t: Option<Theme>): Field
  {
    match t
    case None => FUndefined
    case Some(Light) => FText("light")
    case Some(Dark) => FText("dark")
  }

  /** `payloadFull`. */
  function FullPayload(userId: string, input: UpsertInput): (p: Payload)
    ensures p.Keys == {"user_id", "gross_income", "red_line_amount", "currency", "theme"}
  {
    map["user_id" := FText(userId), "gross_income" := NumberField(input.grossIncome),
        "red_line_amount" := NumberField(input.redLineAmount), "currency" := FText(input.currency),
        "theme" := ThemeField(input.theme)]
  }

  /** `payloadMinimal`: only the user, the gross income and the currency. */
  function MinimalPayload(userId: string, input: UpsertInput): (p: Payload)
    ensures p.Keys == {"user_id", "gross_income", "currency"}
    ensures forall k :: k in p ==> p[k] == FullPayload(userId, input)[k]
  {
    map["user_id" := FText(userId), "gross_income" := NumberField(input.grossIncome),
        "currency" := FText(input.currency)]
  }

  /** The characters a regular expression's `.` does not match. */
  predicate IsLineTerminator(c: char)
  {
    c == '\n' || c == '\r' || c == '\U{2028}' || c == '\U{2029}'
  }

  /**
   * `/column.*does not exist|unknown column/i`: the ignore-case flag folds
   * only ASCII letters for these patterns, and `.*` spans no line terminator.
   */
  predicate IsMissingColumn(msg: string)
  {
    var m := Lower(msg);
    Contains(m, "unknown column")
    || exists i, j :: 0 <= i && i + 6 <= j <= |m| - 14 && OccursAt(m, "column", i) && OccursAt(m, "does not exist", j)
                         && (forall k :: i + 6 <= k < j ==> !IsLineTerminator(m[k]))
  }

  /** The PostgreSQL wording of a missing column is recognised, in any letter case. */
  lemma MissingColumnPostgres()
    ensures IsMissingColumn("Column theme Does Not Exist")
  {
    var m := Lower("Column theme Does Not Exist");
    assert m[..6] == "column";
    assert m[13..27] == "does not exist" by {
      forall k | 0 <= k < 14
        ensures m[13..27][k] == "does not exist"[k]
      {
        assert m[13..27][k] == ToLowerChar("Column theme Does Not Exist"[13 + k]);
      }
    }
    assert OccursAt(m, "column", 0);
    assert OccursAt(m, "does not exist", 13);
  }

  /** The MySQL wording of a missing column is recognised, in any letter case. */
  lemma MissingColumnMysql()
    ensures IsMissingColumn("Unknown column 'theme'")
  {
    var m := Lower("Unknown column 'theme'");
    assert m[..14] == "unknown column";
    assert OccursAt(m, "unknown column", 0);
  }

  /** The two halves of the first wording on separate lines do not match. */
  lemma MissingColumnOneLine()
    ensures !IsMissingColumn("column theme\ndoes not exist")
  {
    var m := Lower("column theme\ndoes not exist");
    assert m == "column theme\ndoes not exist";
    forall i | 0 <= i <= |m| - 14
      ensures !OccursAt(m, "unknown column", i)
    {
      assert m[i..i + 14][0] == m[i] && m[i..i + 14][1] == m[i + 1];
    }
    forall i, j | 0 <= i && i + 6 <= j <= |m| - 14 && OccursAt(m, "column", i) && OccursAt(m, "does not exist", j)
      ensures IsLineTerminator(m[12]) && i + 6 <= 12 < j
    {
      assert m[j..j + 14][0] == m[j];
      assert m[i..i + 6][0] == m[i];
    }
  }

  /** The full payload without the columns the error message names (`payloadSafe`). */
  function RetryPayload(full: Payload, msg: string): Payload
  {
    full - (if Contains(msg, "red_line_amount") then {"red_line_amount"} else {})
         - (if Contains(msg, "theme") then {"theme"} else {})
  }

  /** What an upsert call did: its result and the payloads it sent, in order. */
  datatype UpsertRun = UpsertRun(result: Result<UserSettings>, sent: seq<Payload>)

  /**
   * The fallback ladder.  `first`, `second` and `third` are the outcomes the
   * backend gives to the first, second and third call; a call that is not
   * made does not use its outcome.
   */
  function Ladder(userId: string, input: UpsertInput,
                  first: Result<UserSettings>, second: Result<UserSettings>,
                  third: Result<UserSettings>): (r: UpsertRun)
    ensures 1 <= |r.sent| <= 3
    ensures r.sent[0] == FullPayload(userId, input)
    ensures first.Ok? ==> r == UpsertRun(first, [FullPayload(userId, input)])
    ensures first.Err? && !IsMissingColumn(first.message) ==>
              r == UpsertRun(first, [FullPayload(userId, input)])
    ensures |r.sent| >= 2 ==>
              first.Err? && IsMissingColumn(first.message)
              && r.sent[1] == RetryPayload(FullPayload(userId, input), first.message)
    ensures |r.sent| == 2 ==> r.result == second && second.Ok?
    ensures |r.sent| == 3 ==> second.Err? && r.sent[2] == MinimalPayload(userId, input) && r.result == third
  {
    var full := FullPayload(userId, input);
    if first.Ok? then UpsertRun(first, [full])
    else if !IsMissingColumn(first.message) then UpsertRun(first, [full])
    else
      var safe := RetryPayload(full, first.message);
      if second.Ok? then UpsertRun(second, [full, safe])
      else UpsertRun(third, [full, safe, MinimalPayload(userId, input)])
  }

  /** The retry drops `red_line_amount` and `theme` exactly when the message names them, and nothing else. */
  lemma RetryPayloadKeys(userId: string, input: UpsertInput, msg: string)
    ensures var p := RetryPayload(FullPayload(userId, input), msg);
      && ("red_line_amount" in p <==> !Contains(msg, "red_line_amount"))
      && ("theme" in p <==> !Contains(msg, "theme"))
      && "user_id" in p && "gross_income" in p && "currency" in p
      && (forall k :: k in p ==> p[k] == FullPayload(userId, input)[k])
  {
  }

  /** The cache of `getForUser` and `upsert`, keyed by user id. */
  class SettingsStore {
    var cache: map<string, UserSettings>

    constructor()
      ensures cache == map[]
    {
      cache := map[];
    }

    /**
     * `getForUser`: a cached row is returned without a query; otherwise the
     * query's outcome is returned, and a row found is cached.
     */
    method GetForUser(userId: string, fetched: Result<Option<UserSettings>>)
      returns (r: Result<Option<UserSettings>>, queried: bool)
      modifies this
      ensures userId in old(cache) ==> !queried && r == Ok(Some(old(cache)[userId])) && cache == old(cache)
      ensures userId !in old(cache) ==> queried && r == fetched
      ensures userId !in old(cache) && fetched.Ok? && fetched.value.Some? ==>
                cache == old(cache)[userId := fetched.value.value]
      ensures userId !in old(cache) && !(fetched.Ok? && fetched.value.Some?) ==> cache == old(cache)
    {
      if userId in cache {
        return Ok(Some(cache[userId])), false;
      }
      queried := true;
      if fetched.Err? {
        return fetched, queried;
      }
      if fetched.value.Some? {
        cache := cache[userId := fetched.value.value];
      }
      r := fetched;
    }

    /**
     * `upsert`: the ladder of at most three calls; the row of the call that
     * succeeds is cached and returned, and an error leaves the cache alone.
     */
    method Upsert(userId: string, input: UpsertInput,
                  first: Result<UserSettings>, second: Result<UserSettings>, third: Result<UserSettings>)
      returns (r: Result<UserSettings>, sent: seq<Payload>)
      modifies this
      ensures UpsertRun(r, sent) == Ladder(userId, input, first, second, third)
      ensures r.Ok? ==> cache == old(cache)[userId := r.value]
      ensures r.Err? ==> cache == old(cache)
    {
      var payloadFull := FullPayload(userId, input);
      var payloadMinimal := MinimalPayload(userId, input);
      sent := [payloadFull];
      if first.Err? {
        var msg := first.message;
        if IsMissingColumn(msg) {
          var payloadSafe := payloadFull;
          if Contains(msg, "red_line_amount") {
            payloadSafe := payloadSafe - {"red_line_amount"};
          }
          if Contains(msg, "theme") {
            payloadSafe := payloadSafe - {"theme"};
          }
          assert payloadSafe == RetryPayload(payloadFull, msg);
          sent := sent + [payloadSafe];
          if second.Err? {
            sent := sent + [payloadMinimal];
            if third.Err? {
              return third, sent;
            }
            cache := cache[userId := third.value];
            return third, sent;
          }
          cache := cache[userId := second.value];
          return second, sent;
        }
        return first, sent;
      }
      cache := cache[userId := first.value];
      r := first;
    }
  }
}
