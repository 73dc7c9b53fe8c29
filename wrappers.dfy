/** Failure-carrying datatypes used by the configuration loader. */
module Wrappers {

  /** A value that may be absent. */
  datatype Option<+T> = None | Some(value: T)

  /** Either the computed value or the error a JavaScript `throw` would carry. */
  datatype Result<+T, +E> = Ok(value: T) | Err(error: E)
}
