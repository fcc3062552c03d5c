/** Optional values and the outcome of a call that can fail with a message. */
module Wrappers {

  datatype Option<T> = None | Some(value: T)

  /** A backend call: its data, or the message of the error it returned. */
  datatype Result<T> = Ok(value: T) | Err(message: string)

  /** A property of a TypeScript input object: absent, `null`, or a value. */
  datatype Field<T> = Undefined | Null | Defined(value: T)

  /** `f ?? null`: the value when there is one, `null` for both absent and `null`. */
  function OrNull<T>(f: Field<T>): (r: Option<T>)
    ensures r.Some? <==> f.Defined?
    ensures r.Some? ==> r.value == f.value
  {
    if f.Defined? then Some(f.value) else None
  }
}
