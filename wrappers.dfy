/** Failure-compatible wrappers shared by the webhook model. */
module Wrappers {

  /** A value that may be absent: an unset environment variable, a missing
      query parameter or JSON field (JavaScript `undefined`). */
  datatype Option<+T> = None | Some(value: T)

  /** The outcome of a step that can throw. */
  datatype Result<+T, +E> = Success(value: T) | Failure(error: E)
}
