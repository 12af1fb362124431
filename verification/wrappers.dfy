/** Option and Result datatypes used throughout the model. */
module Wrappers {

  /** An optional value: the model's stand-in for a nullable reference. */
  datatype Option<+T> = None | Some(value: T)

  /** A computation that either produced a value or stopped with an error. */
  datatype Result<+R, +E> = Success(value: R) | Failure(error: E)
}
