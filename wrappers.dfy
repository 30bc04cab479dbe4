/** The two failure-carrying result shapes used by the analyzer model. */
module Wrappers {

  /** A value that may be absent: Python's `None` for a missing rank, or a visitor that raised. */
  datatype Option<+T> = None | Some(value: T)

  /** Either the normal return value of an operation or the error it raised. */
  datatype Result<+R, +E> = Success(value: R) | Failure(error: E)
}
