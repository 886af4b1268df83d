/** Failure-carrying result types used for the Python exceptions of the engine. */
module Wrappers {

  datatype Option<+T> = None | Some(value: T)

  /** A computation that yields a value or raises an error. */
  datatype Result<+R, +E> = Success(value: R) | Failure(error: E)

  /** A statement that completes or raises an error. */
  datatype Outcome<+E> = Pass | Fail(error: E)
}
