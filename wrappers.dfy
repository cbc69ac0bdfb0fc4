/** Option and Result, the failure-carrying values used across the model. */
module Wrappers {

  /** A value that may be absent; None stands for Go's nil slice. */
  datatype Option<+T> = None | Some(value: T)

  /** A value or an error, as Go's `(T, error)` pairs. */
  datatype Result<+T, +E> = Ok(value: T) | Err(error: E)
}
