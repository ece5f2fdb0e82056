/** Go's nil-able pointers and (value, error) returns, as Dafny datatypes. */
module Wrappers {

  /** A pointer that may be nil. */
  datatype Option<+T> = None | Some(value: T)

  /** A Go `(value, error)` return in which exactly one side is non-nil. */
  datatype Result<+T, +E> = Success(value: T) | Failure(error: E)
}
