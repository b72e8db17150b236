/** Option and Result datatypes: JavaScript's `null` and a value-or-thrown-error. */
module Wrappers {

  /** A value that may be absent, as JavaScript's `null`. */
  datatype Option<+T> = None | Some(value: T)

  /** A computation that either yields a value or throws. */
  datatype Result<+R, +E> = Success(value: R) | Failure(error: E)
}
