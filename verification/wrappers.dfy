/** Failure-carrying wrappers used by the loader model. */
module Wrappers {

  /** A value that may be absent (JavaScript's `undefined` argument, an idle fetch slot). */
  datatype Option<+T> = None | Some(value: T)

  /** The outcome of an operation that can throw: a value or the error it throws. */
  datatype Result<+R, +E> = Success(value: R) | Failure(error: E)
}
