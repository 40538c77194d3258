/** Failure-compatible wrappers shared by the model's modules. */
module Wrappers {

  datatype Option<+T> = None | Some(value: T)

  /** A value on success, or the error the source raises. */
  datatype Result<+R, +E> = Ok(value: R) | Err(error: E)

  /** No value on success, or the error the source raises. */
  datatype Outcome<+E> = Pass | Fail(error: E)
}
