/** Option, Result and Outcome: the error returns and exceptions of the hub. */
module Wrappers {

  datatype Option<+T> = None | Some(value: T)

  datatype Result<+R, +E> = Success(value: R) | Failure(error: E)

  /** An operation that either finishes or raises `error`. */
  datatype Outcome<+E> = Pass | Fail(error: E)
}
