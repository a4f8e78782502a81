/** The optional-value and result datatypes shared by every module of the model. */
module Wrappers {

  /** A value that may be missing: an absent request field, an unset variable. */
  datatype Option<+T> = None | Some(value: T)

  /** A computation that either yields a value or fails with an error. */
  datatype Result<+T, +E> = Ok(value: T) | Err(error: E)
}
