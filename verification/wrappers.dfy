/** Option and Result: the model's stand-ins for Go's `(value, error)` returns. */
module Wrappers {

  /** A value that may be missing. */
  datatype Option<+T> = None | Some(value: T)

  /** Either a value or an error; never both. */
  datatype Result<+T, +E> = Success(value: T) | Failure(error: E)
}
