/** The body of an `update` call: column names mapped to the values to store. */
module Patch {
  import opened Wrappers
  import opened TransactionType

  /** A value of the patch body. */
  datatype Value = Number(n: real) | Text(s: string) | Kind(k: TxType) | NullValue

  /** A nullable text column: `null` or the text. */
  function TextOrNull(f: Field<string>): (v: Value)
    requires !f.Undefined?
    ensures v == NullValue <==> f.Null?
  {
    if f.Null? then NullValue else Text(f.value)
  }
}
