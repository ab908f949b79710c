/** Option and Result, the two failure-carrying shapes the rest of the model uses. */
module Wrappers {

  /** A value that may be absent: JavaScript's `null`/`undefined` for an optional field. */
  datatype Option<+T> = None | Some(value: T)

  /** The outcome of an operation that may throw: the value, or what was thrown. */
  datatype Result<+R, +E> = Success(value: R) | Failure(error: E)
}
