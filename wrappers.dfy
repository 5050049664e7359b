/** Failure-compatible wrappers used to model Python's `None` and raised exceptions. */
module Wrappers {

  datatype Option<+T> = None | Some(value: T)

  /** A value, or the exception the source raises instead of returning one. */
  datatype Result<+R, +E> = Success(value: R) | Failure(error: E)

  /** Either the call completed, or it raised `error`. */
  datatype Outcome<+E> = Pass | Fail(error: E)
}
