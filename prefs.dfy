/**
 * The preference record kept in the browser under `myfintrack_prefs`, as the
 * settings page and the notification queue read it:
 * `JSON.parse(localStorage.getItem('myfintrack_prefs') ?? '{}')` and then
 * `prefs.someField`.
 */
module Prefs {

  /** A parsed JSON document. */
  datatype Json =
    | JNull
    | JBool(b: bool)
    | JNumber(n: real)
    | JString(s: string)
    | JArray(items: seq<Json>)
    | JObject(fields: map<string, Json>)

  /** What the stored text gives: text that is not JSON makes `JSON.parse` throw. */
  datatype Stored = Malformed | Parsed(doc: Json)

  /** Nothing stored: the fallback text `{}`. */
  const NothingStored: Stored := Parsed(JObject(map[]))

  /** The result of reading `prefs.key`. */
  datatype Read = Throws | Undefined | Value(v: Json)

  /**
   * `prefs.key`: a parse error or a `null` document throws; an object gives its
   * field when present; any other document has no such field.
   */
  function Property(stored: Stored, key: string): (r: Read)
    ensures r == Throws <==> stored == Malformed || stored == Parsed(JNull)
    ensures r.Value? ==> stored.Parsed? && stored.doc.JObject? && key in stored.doc.fields
                         && r.v == stored.doc.fields[key]
  {
    match stored
    case Malformed => Throws
    case Parsed(JNull) => Throws
    case Parsed(JObject(fields)) => if key in fields then Value(fields[key]) else Undefined
    case Parsed(_) => Undefined
  }

  /** JavaScript truthiness of a JSON value. */
  predicate Truthy(v: Json)
  {
    match v
    case JNull => false
    case JBool(b) => b
    case JNumber(n) => n != 0.0
    case JString(s) => s != []
    case _ => true
  }
}
