/** Failure-compatible wrappers used in place of null references and thrown exceptions. */
module Wrappers {

  /** `None` stands where the source passes a null reference. */
  datatype Option<+T> = None | Some(value: T)

  /** A value, or the error the source would have thrown instead of returning it. */
  datatype Result<+R, +E> = Success(value: R) | Failure(error: E)

  /** The outcome of a call that returns nothing but may throw. */
  datatype Outcome<+E> = Pass | Fail(error: E)
}
