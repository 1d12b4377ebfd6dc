/** Failure and absence values shared by every component. */
module Wrappers {

  datatype Option<+T> = None | Some(value: T)

  /** The Go `error` return of a call that yields nothing else. */
  datatype Outcome<+E> = Ok | Err(error: E)

  /** The Go `(value, error)` return. */
  datatype Result<+T, +E> = Success(value: T) | Failure(error: E)
}
