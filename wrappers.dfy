/** Option and Result, the failure-carrying values used throughout the model. */
module Wrappers {

  datatype Option<+T> = None | Some(value: T)

  /** A Python call either returns a value or raises; `Failure` carries the text of the exception. */
  datatype Result<+T, +E> = Success(value: T) | Failure(error: E)
}
