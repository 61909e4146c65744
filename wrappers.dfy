/** Failure-carrying result types used by the label model. */
module Wrappers {

  /** A value that may be absent (JavaScript's `undefined`). */
  datatype Option<+T> = None | Some(value: T)

  /** A computed value, or the message of the error the source throws. */
  datatype Result<+R, +E> = Success(value: R) | Failure(error: E)

  /** A step that either completes or throws an error carrying a message. */
  datatype Outcome<+E> = Pass | Fail(error: E)
}
