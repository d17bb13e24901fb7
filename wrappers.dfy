/** Optional values shared by the three components of the model. */
module Wrappers {

  /** A value that may be absent: Python's `None` or a value. */
  datatype Option<+T> = None | Some(value: T)

  /** The outcome of an operation that the source lets fail with an exception. */
  datatype Result<+T, +E> = Ok(value: T) | Err(error: E)
}
