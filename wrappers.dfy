/** Failure-carrying values used in place of Go's `(T, error)` pairs and nil pointers. */
module Wrappers {

  datatype Option<+T> = None | Some(value: T)

  /** A Go `(T, error)` result; the error is kept as its message text. */
  datatype Result<+T> = Ok(value: T) | Err(error: string)
}
