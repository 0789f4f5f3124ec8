/** JavaScript values and conventions shared by the driver registry, the
    project wiring and the server configuration. */
module Js {

  datatype Option<+T> = None | Some(value: T)

  datatype Result<+T, +E> = Ok(value: T) | Err(error: E)

  /** The JavaScript values the core passes around, as far as it looks at them.
      Numbers are integers here; fractions and NaN are not modelled. */
  datatype Value =
    | Undefined
    | Null
    | Bool(b: bool)
    | Num(n: int)
    | Str(s: string)
    | Arr(elems: seq<Value>)

  /** An exception thrown by the core: `new Error(message)` or a TypeError raised
      by the engine when a property of `undefined` or a missing method is used. */
  datatype Exception = Error(message: string) | TypeError(message: string)

  /** JavaScript truthiness (`if (v)`, `!v`, `a || b`). Arrays are objects and
      are truthy even when empty. */
  predicate Truthy(v: Value)
  {
    match v
    case Undefined => false
    case Null => false
    case Bool(b) => b
    case Num(n) => n != 0
    case Str(s) => s != []
    case Arr(_) => true
  }

  /** Truthiness of a value that is either `undefined` or a string. */
  predicate TruthyText(v: Option<string>)
  {
    v.Some? && v.value != []
  }

  /** The property key `o[k]` uses when `k` is a string or `undefined`:
      `undefined` is converted to the string "undefined". */
  function PropertyKey(k: Option<string>): string
  {
    match k
    case Some(s) => s
    case None => "undefined"
  }
}
