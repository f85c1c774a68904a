/**
 * Nullable values.  JavaScript's `undefined`/`null` become `None`; the
 * `x || ''` fallback the screens use on optional strings is `OrEmpty`.
 */
module Options {

  datatype Option<+T> = None | Some(value: T)

  /** `x || ''` on an optional string: a missing or empty string gives "". */
  function OrEmpty(o: Option<string>): (r: string)
    ensures o.Some? ==> r == o.value
    ensures o.None? ==> r == ""
  {
    match o
    case Some(s) => s
    case None => ""
  }

  /** `a || b` on strings: JavaScript treats the empty string as false. */
  function OrString(a: string, b: string): (r: string)
    ensures a != "" ==> r == a
    ensures a == "" ==> r == b
  {
    if a != "" then a else b
  }
}
