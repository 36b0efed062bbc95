/** Optional values and outcomes with an error, used across the model. */
module Wrappers {

  /** A value that may be absent (JavaScript's null or undefined). */
  datatype Option<+T> = None | Some(value: T)

  /** A settled promise: resolved with a value, or rejected with an error message. */
  datatype Result<+T, +E> = Ok(value: T) | Err(error: E)
}
