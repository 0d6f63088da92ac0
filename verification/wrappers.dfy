/** Small failure-carrying datatypes shared by the controller models. */
module Wrappers {

  /** A value that may be absent: a Go nil pointer, a missing form value. */
  datatype Option<+T> = None | Some(value: T)

  /** A computation that yields a value or an error. */
  datatype Result<+R, +E> = Success(value: R) | Failure(error: E)

  /** A check that passes or fails with an error, like a Go function returning only `error`. */
  datatype Outcome<+E> = Pass | Fail(error: E)
}
