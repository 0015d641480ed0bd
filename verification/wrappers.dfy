/** Option, Result and Outcome wrappers shared by every module of the model. */
module Wrappers {
  datatype Option<T> = None | Some(value: T)

  /** A value or an error message: a Go `(T, error)` pair, or a Python call that may raise. */
  datatype Result<T> = Ok(value: T) | Err(error: string)

  /** A Go call that returns only `error`: nil (`Pass`) or an error message. */
  datatype Outcome = Pass | Fail(error: string)
}
