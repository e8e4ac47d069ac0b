/** Optional values and results with an error, shared by every module. */
module Wrappers {

  /** A value that may be absent: Python's `None` or a present value. */
  datatype Option<+T> = None | Some(value: T)

  /** The outcome of an operation that can raise: a value or the exception raised. */
  datatype Result<+T, +E> = Ok(value: T) | Err(error: E)
}
