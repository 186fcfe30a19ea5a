/** `Option` and `Result`, shared by the model. */
module Wrappers {

  /** A value that may be missing: Python's `None`, or a lookup that raised. */
  datatype Option<+T> = None | Some(value: T)

  /** The outcome of a step that either yields a value or fails with an error. */
  datatype Result<+T, +E> = Ok(value: T) | Err(error: E)
}
