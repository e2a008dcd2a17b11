/** Failure-compatible result types used where the Java code throws. */
module Wrappers {

  /** A value or its absence (Java's `null`). */
  datatype Option<+T> = None | Some(value: T)

  /** A value or the exception that was thrown instead. */
  datatype Result<+R, +E> = Success(value: R) | Failure(error: E)

  /** Normal completion of a `void` method, or the exception it threw. */
  datatype Outcome<+E> = Pass | Fail(error: E)
}
