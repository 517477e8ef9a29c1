/** Failure-carrying results, standing in for the exceptions the service throws. */
module Wrappers {

  datatype Option<+T> = None | Some(value: T)

  /** The outcome of an operation that returns a value or fails. */
  datatype Result<+T, +E> = Success(value: T) | Failure(error: E)

  /** The outcome of an operation that returns nothing (a Java `void` method) or fails. */
  datatype Outcome<+E> = Pass | Fail(error: E)
}
