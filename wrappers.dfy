/** Failure-carrying result types shared by the analysis, the scheduler and the reducer. */
module Wrappers {

  /** A value that may be missing: Python's `None` return. */
  datatype Option<+T> = None | Some(value: T)

  /** Either a value or the error that the source raises instead. */
  datatype Result<+T, +E> = Success(value: T) | Failure(error: E)
}
