/** The optional-value and result types the rest of the model returns. */
module Wrappers {

  /** Python's `Optional[T]`: `None` or a value. */
  datatype Option<+T> = None | Some(value: T)

  /** A value, or the exception the Python code raises instead. */
  datatype Result<+T, +E> = Ok(value: T) | Err(error: E)
}
