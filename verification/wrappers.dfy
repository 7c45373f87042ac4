/** Failure-compatible wrappers used throughout the model. */
module Wrappers {

  /** An optional value: a field or query parameter that may be absent. */
  datatype Option<+T> = None | Some(value: T)

  /** Either a value or the error that an operation raised instead. */
  datatype Result<+R, +E> = Success(value: R) | Failure(error: E)
}
