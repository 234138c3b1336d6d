/** Failure-carrying values: JavaScript's `undefined` and thrown errors become data. */
module Wrappers {

  /** A value that may be absent (`undefined` in the source). */
  datatype Option<+T> = None | Some(value: T)

  /** The outcome of an operation that either returns a value or throws an error. */
  datatype Result<+T, +E> = Success(value: T) | Failure(error: E)

  /** The outcome of an awaited call whose value is not used: it resolves or it rejects. */
  datatype Outcome<+E> = Pass | Fail(error: E)
}
