/** Option and Result, the failure-carrying values used across the model. */
module Wrappers {

  /** A value that may be absent (JavaScript's `null`/`undefined`). */
  datatype Option<+T> = None | Some(value: T)

  /** The outcome of an operation that may throw: a value or an error message. */
  datatype Result<+R, +E> = Success(value: R) | Failure(error: E)
}
