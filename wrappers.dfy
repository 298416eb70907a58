/** Failure-carrying values shared by the editor model. */
module Wrappers {

  datatype Option<+T> = None | Some(value: T)

  /** The outcome of an operation that the Go code aborts with a panic. */
  datatype Result<+T, +E> = Success(value: T) | Failure(error: E)
}
