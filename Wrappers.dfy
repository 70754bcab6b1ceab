/** Failure-carrying values shared by every module of the model.
    A Python exception that propagates out of an operation is modelled as
    a `Fail`/`Err` value returned by that operation. */
module Wrappers {

  datatype Option<+T> = None | Some(value: T)

  /** The outcome of an operation that returns nothing but may raise. */
  datatype Outcome<+E> = Pass | Fail(error: E)

  /** The outcome of an operation that returns a value or raises. */
  datatype Result<+T, +E> = Ok(value: T) | Err(error: E)

  /** Python truthiness of an optional string: `None` and `''` are false. */
  predicate IsSet(s: Option<string>) {
    s.Some? && s.value != ""
  }
}
