/** Optional values and success/failure results shared by every module. */
module Wrappers {

  /** An optional value, standing in for Go's nil pointers and "not found". */
  datatype Option<+T> = None | Some(value: T)

  /** A value or an error: Go's `(value, error)` return pairs. */
  datatype Result<+R, +E> = Success(value: R) | Failure(error: E)
}
