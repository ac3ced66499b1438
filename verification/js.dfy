/**
 JavaScript values as the string dispatcher sees them: the discriminant may be
 a string, `null` or `undefined`, and it is turned into text by `String(x)`
 both when it is used as a property key and when it is printed in an error.
 */
module Js {

  /** A discriminant at run time. */
  datatype Input = Str(s: string) | Null | Undefined

  /** An optional value; `None` stands for an argument that was left out. */
  datatype Option<+T> = None | Some(value: T)

  /** `String(x)`: the coercion shared by `hasOwnProperty(x)` and `${x}`. */
  function ToJsString(x: Input): string
  {
    match x
    case Str(s) => s
    case Null => "null"
    case Undefined => "undefined"
  }

  /** The coercion loses information only where a string spells out
      `null` or `undefined`: every other pair of distinct inputs renders
      differently. */
  lemma ToJsStringCollisions(x: Input, y: Input)
    requires x != y && ToJsString(x) == ToJsString(y)
    ensures (x == Null && y == Str("null")) || (x == Str("null") && y == Null)
         || (x == Undefined && y == Str("undefined")) || (x == Str("undefined") && y == Undefined)
  {
  }
}
