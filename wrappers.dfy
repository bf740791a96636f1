/** Option and Result, for values that may be absent and operations that may fail. */
module Wrappers {

  /** A value that may be absent (JavaScript's `undefined`, `NaN`, a cache miss). */
  datatype Option<+T> = None | Some(value: T)

  /** The outcome of an operation that either yields a value or throws an error message. */
  datatype Result<+R, +E> = Success(value: R) | Failure(error: E)
}
