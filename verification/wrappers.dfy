/** Optional values and results with an error, as used throughout the model. */
module Wrappers {

  /** A value that may be absent (`undefined` in the source). */
  datatype Option<+T> = None | Some(value: T)

  /** The outcome of a step that may throw. */
  datatype Result<+T, +E> = Ok(value: T) | Err(error: E)
}
