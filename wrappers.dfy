/** Failure-compatible wrappers used to model Kotlin's nullable values and thrown exceptions. */
module Wrappers {

  /** A Kotlin `T?`: either no value or a value. */
  datatype Option<+T> = None | Some(value: T)

  /** The value of an expression that either returns or throws. */
  datatype Result<+T, +E> = Success(value: T) | Failure(error: E)

  /** The completion of a `Unit` operation that either returns or throws. */
  datatype Outcome<+E> = Pass | Fail(error: E)
}
