/** Failure-compatible wrappers shared by every module of the model. */
module Wrappers {

  /** An optional value: Go's "zero value means absent" made explicit. */
  datatype Option<+T> = None | Some(value: T)

  /** The (value, error) pair every fallible Go function of the program returns. */
  datatype Result<+T, +E> = Ok(value: T) | Err(error: E)
}
