/** Failure-carrying values shared by every module of the model. */
module Wrappers {

  /** A value that may be absent (a nil pointer, a missing map entry). */
  datatype Option<+T> = None | Some(value: T)

  /** A value or an error message (Go's `(T, error)` result pairs). */
  datatype Result<+T> = Ok(value: T) | Err(error: string)
}
