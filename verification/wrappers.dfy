/** Failure-compatible wrappers used in place of Python's `None` returns and
    raised exceptions. */
module Wrappers {

  /** A value that may be absent; `None` stands for Python's `None`. */
  datatype Option<+T> = None | Some(value: T)

  /** Either a value or the error that a call raised. */
  datatype Result<+R, +E> = Success(value: R) | Failure(error: E)
}
