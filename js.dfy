/** The few pieces of JavaScript value semantics the modelled code relies on:
    values that may be `undefined`, thrown errors, truthiness and `startsWith`. */
module Js {

  /** A value that may be `undefined` (or `null`). */
  datatype Option<+T> = None | Some(value: T)

  /** A computation that either returns a value or throws. */
  datatype Result<+T, +E> = Ok(value: T) | Err(error: E)

  /** The constructor of a thrown JavaScript error. */
  datatype ErrorKind = PlainError | SyntaxError | TypeError

  /** A thrown JavaScript error: its constructor and its `message`. */
  datatype JsError = JsError(kind: ErrorKind, message: string)

  /** A JavaScript value of unknown shape, seen only through what the code asks of
      it: whether it is truthy, and the text `JSON.stringify` produces for it. */
  datatype JsValue = JsValue(truthy: bool, json: string)

  /** Truthiness of a string that may be `undefined`: only a non-empty string is truthy. */
  predicate Truthy(s: Option<string>)
  {
    s.Some? && s.value != ""
  }

  /** Truthiness of a number that may be `undefined` (NaN is not modelled). */
  predicate TruthyNumber(n: Option<int>)
  {
    n.Some? && n.value != 0
  }

  /** `a || b` on two strings. */
  function OrElse(a: string, b: string): string
  {
    if a != "" then a else b
  }

  /** `a || b` where `a` may be `undefined`. */
  function OptOrElse(a: Option<string>, b: string): string
  {
    if Truthy(a) then a.value else b
  }

  /** The string an optional string contributes to a `||` chain: `undefined` is as falsy as `""`. */
  function OrEmpty(a: Option<string>): string
  {
    if a.Some? then a.value else ""
  }

  /** `s.startsWith(prefix)`, case-sensitive. */
  predicate StartsWith(s: string, prefix: string)
  {
    |prefix| <= |s| && s[..|prefix|] == prefix
  }
}
