/** Failure-carrying values used where the source throws or yields `undefined`. */
module Wrappers {

  /** `None` stands for JavaScript's `undefined` (or NaN where documented). */
  datatype Option<+T> = None | Some(value: T)

  /** A computation that either yields a value or throws the given error. */
  datatype Result<+T, +E> = Success(value: T) | Failure(error: E)
}
