/** Failure-aware return values used by the order handlers. */
module Wrappers {

  /** A value that may be absent (JavaScript `undefined` / `null`). */
  datatype Option<+T> = None | Some(value: T)

  /** Either the record a handler answers with, or the error it reports. */
  datatype Result<+T, +E> = Success(value: T) | Failure(error: E)
}
