/** Option and Result, the shapes the model uses for `T | null` and for thrown errors. */
module Wrappers {

  datatype Option<+T> = None | Some(value: T)

  datatype Result<+T, +E> = Ok(value: T) | Err(error: E)
}

/** The little of JavaScript's value semantics that the components rely on. */
module JsValues {
  import opened Wrappers

  /** A `string | null` (or an optional string property) is truthy when it is a non-empty string. */
  predicate Truthy(s: Option<string>)
  {
    s.Some? && s.value != ""
  }

  /** JavaScript `a || b` on two `string | null` values. */
  function Or(a: Option<string>, b: Option<string>): Option<string>
  {
    if Truthy(a) then a else b
  }

  /** JavaScript `a || fallback` where the fallback is a string literal. */
  function OrElse(a: Option<string>, fallback: string): string
  {
    if Truthy(a) then a.value else fallback
  }
}
