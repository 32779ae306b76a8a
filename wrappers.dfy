/** Failure-compatible result types shared by every store. */
module Wrappers {

  datatype Option<+T> = None | Some(value: T)

  /** A value or a distinguishable error condition (the Go `(T, error)` pair). */
  datatype Result<+T, +E> = Success(value: T) | Failure(error: E) {
    predicate IsFailure() { Failure? }
  }
}
