/** Failure-carrying results used in place of the source's exceptions. */
module Wrappers {

  /** A value, or the error the source would have thrown. */
  datatype Result<+T, +E> = Success(value: T) | Failure(error: E)

  /** Success without a value, or the error the source would have thrown. */
  datatype Outcome<+E> = Pass | Fail(error: E)
}
