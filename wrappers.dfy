/** Option and Result: Go's nil pointers and (value, error) pairs. */
module Wrappers {

  /** A value that may be absent; `None` stands for Go's nil pointer. */
  datatype Option<+T> = None | Some(value: T)

  /** A value or an error, as Go's `(T, error)` return pairs. */
  datatype Result<+T, +E> = Ok(value: T) | Err(error: E)
}
