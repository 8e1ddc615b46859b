/** Optional values and results that carry either a value or an error message. */
module Wrappers {

  /** Python's `Optional[T]`: `None` or a value. */
  datatype Option<+T> = None | Some(value: T)

  /** The outcome of a call that may raise: its value, or the text of the exception. */
  datatype Result<+T, +E> = Ok(value: T) | Err(error: E)
}
