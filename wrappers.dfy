/** Failure-carrying values shared by every module of the model. */
module Wrappers {

  /** A value that may be absent; `None` plays the part of Go's `nil`. */
  datatype Option<+T> = None | Some(value: T)

  /** Either a value or the error that prevented computing it. */
  datatype Result<+R, +E> = Success(value: R) | Failure(error: E)
}
