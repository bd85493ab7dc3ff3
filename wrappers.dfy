/** Failure-compatible wrappers used across the model: a nullable value and an operation outcome. */
module Wrappers {

  /** A Kotlin nullable value (`T?`). */
  datatype Option<+T> = None | Some(value: T)

  /** A Kotlin `Result<T>`; the failure carries the exception's message. */
  datatype Result<+T, +E> = Success(value: T) | Failure(error: E)
}
