/** Failure-carrying result types shared by the model. */
module Wrappers {

  /** A value that may be absent, as JavaScript's `undefined`. */
  datatype Option<+T> = None | Some(value: T)

  /** Either a value or the error that stopped the computation. */
  datatype Result<+T, +E> = Success(value: T) | Failure(error: E)
}
