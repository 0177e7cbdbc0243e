/** Failure-carrying datatypes used throughout the model. */
module Wrappers {

  /** A value that may be absent; stands for a Python attribute that may be `None`. */
  datatype Option<+T> = None | Some(value: T)

  /** The outcome of a computation that either produces a value or fails with an error. */
  datatype Result<+R, +E> = Success(value: R) | Failure(error: E)
}
