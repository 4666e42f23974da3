/** Failure-compatible wrappers used across the model. */
module Wrappers {

  /** A value that may be absent (Python's `None`). */
  datatype Option<+T> = None | Some(value: T)

  /** The result of an operation that either succeeds or raises an error. */
  datatype Outcome<+E> = Pass | Fail(error: E)
}
