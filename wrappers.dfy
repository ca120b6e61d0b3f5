/** Optional values and success/failure results shared by every module. */
module Wrappers {

  /** A value that may be absent: JavaScript's `undefined` for an optional field. */
  datatype Option<+T> = None | Some(value: T)

  /** The outcome of a step that can throw: a value, or the error that was raised. */
  datatype Result<+T, +E> = Success(value: T) | Failure(error: E)
}
