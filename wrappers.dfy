/** Failure-carrying values used across the model. */
module Wrappers {

  /** A value that may be missing: `null` / `undefined` in the application. */
  datatype Option<+T> = None | Some(value: T)

  /** The outcome of an operation that can throw: `Failure` carries the thrown message. */
  datatype Result<+R, +E> = Success(value: R) | Failure(error: E)
}
