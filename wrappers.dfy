/** Option and Result, the two failure-carrying types the rest of the model uses. */
module Wrappers {

  /** `undefined` (or a missing entry) is None. */
  datatype Option<+T> = None | Some(value: T)

  /** A computation that either produces a value or throws an error. */
  datatype Result<+T, +E> = Success(value: T) | Failure(error: E)
}
