/** Failure-carrying results shared by the lexers and the parser. */
module Wrappers {

  /** A value that may be absent (the source's `Token | null`). */
  datatype Option<+T> = None | Some(value: T)

  /** A computation that either produces a value or stops with an error. */
  datatype Result<+T, +E> = Success(value: T) | Failure(error: E)

  /** A computation with no value that either passes or stops with an error. */
  datatype Outcome<+E> = Pass | Fail(error: E)
}
