/** Failure-compatible wrappers used across the model. */
module Wrappers {

  /** An optional value: a boost::optional, or an absent child of a property tree. */
  datatype Option<+T> = None | Some(value: T)

  /** A value or the error that the source raises instead of returning one. */
  datatype Result<+R, +E> = Success(value: R) | Failure(error: E)
}
