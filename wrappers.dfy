/** Failure-carrying results used across the model. */
module Wrappers {

  datatype Option<+T> = None | Some(value: T)

  datatype Result<+R, +E> = Success(value: R) | Failure(error: E)

  /** A result that carries no value: the operation either passed or failed with an error. */
  datatype Outcome<+E> = Pass | Fail(error: E)
}
