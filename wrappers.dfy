/** Failure-compatible values standing in for JavaScript's `null` and `throw`. */
module Wrappers {

  /** A value that may be absent (a JavaScript `null`). */
  datatype Option<+T> = None | Some(value: T)

  /** The value of an operation, or the message of the exception it throws. */
  datatype Result<+T> = Success(value: T) | Failure(error: string)

  /** The outcome of an operation that returns nothing but may throw. */
  datatype Outcome = Pass | Fail(error: string)
}
