/** Failure-compatible wrappers shared by every module of the model. */
module Wrappers {

  /** A value that may be missing (a Go map miss, a failed type assertion). */
  datatype Option<+T> = None | Some(value: T)

  /** The value of a call that returns `(T, error)` in the source. */
  datatype Result<+T> = Success(value: T) | Failure(error: string)
}
