/** The optional value and the success-or-failure value used throughout the model. */
module Wrappers {

  /** Python's `Optional[T]`: absent (`None`) or a value. */
  datatype Option<+T> = None | Some(value: T)

  /** The outcome of a step that may raise: a value, or the exception it propagates. */
  datatype Result<+T, +E> = Ok(value: T) | Err(error: E)
}
