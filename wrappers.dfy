/** Failure-carrying wrappers shared by every module of the model. */
module Wrappers {

  /** A value that may be absent: JavaScript's NaN/undefined, Python's None. */
  datatype Option<+T> = None | Some(value: T)

  /** A computation that either produced a value or raised. */
  datatype Result<+R, +E> = Success(value: R) | Failure(error: E)
}
