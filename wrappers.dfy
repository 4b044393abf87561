/** Success/failure results standing in for the exceptions the pedigree code raises. */
module Wrappers {

  datatype Option<+T> = None | Some(value: T)

  /** A computation that either produces a value or fails with an error. */
  datatype Result<+T, +E> = Success(value: T) | Failure(error: E)

  /** A state change that either completes or fails with an error. */
  datatype Outcome<+E> = Pass | Fail(error: E)
}
