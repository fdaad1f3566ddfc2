/** Failure-carrying values used throughout the model. */
module Wrappers {

  /** A value that may be absent. */
  datatype Option<+T> = None | Some(value: T)

  /** A value, or the error that prevented computing it. */
  datatype Result<+R, +E> = Ok(value: R) | Err(error: E)

  /** Success of an operation that returns nothing, or its error. */
  datatype Outcome<+E> = Pass | Fail(error: E)
}
