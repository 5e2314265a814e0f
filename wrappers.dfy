/** Failure-compatible wrappers used across the model. */
module Wrappers {

  /** A value that may be missing: JavaScript's `undefined` result of a failed search. */
  datatype Option<+T> = None | Some(value: T)

  /** A computed value, or the error that a thrown exception carries. */
  datatype Result<+T, +E> = Success(value: T) | Failure(error: E)

  /** Completion of an operation that returns nothing but may throw. */
  datatype Outcome<+E> = Pass | Fail(error: E)
}
