/** JavaScript values the market script reads from JSON and passes around. */
module Js {

  datatype Option<+T> = None | Some(value: T)

  /** A JSON property as the script reads it: missing (`undefined`), `null`, or present. */
  datatype Field<+T> = Undefined | Null | Value(v: T)

  /** What string concatenation makes of a string property: `undefined` and `null` become words. */
  function JsText(f: Field<string>): string
  {
    match f
    case Undefined => "undefined"
    case Null => "null"
    case Value(t) => t
  }
}
