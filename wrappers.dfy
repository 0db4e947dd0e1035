/** Option and Result: the null returns and the exceptions of the modelled code. */
module Wrappers {

  /** A value that may be absent (Java's `null`). */
  datatype Option<+T> = None | Some(value: T)

  /** A value, or the exception thrown instead of returning one. */
  datatype Result<+T, +E> = Ok(value: T) | Err(error: E)
}
