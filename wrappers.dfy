/** Optional values and results with an error, used where the source has `undefined` or throws. */
module Wrappers {

  /** A value that may be absent (`undefined` in the source). */
  datatype Option<+T> = None | Some(value: T)

  /** The outcome of an operation that may fail with an error message. */
  datatype Result<+R, +E> = Success(value: R) | Failure(error: E)
}
