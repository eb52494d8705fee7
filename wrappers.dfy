/** Option and Result: absence and failure as values, in place of Python's None and exceptions. */
module Wrappers {

  datatype Option<+T> = None | Some(value: T)

  /** Ok carries the value of a call that returned, Err the exception it raised. */
  datatype Result<+T, +E> = Ok(value: T) | Err(error: E)
}
