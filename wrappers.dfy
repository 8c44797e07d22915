/** Optional values and results of operations that may throw (the
    source's `undefined` and `throw`). */
module Wrappers {

  /** An optional value: `None` stands for JavaScript's `undefined`. */
  datatype Option<+T> = None | Some(value: T)

  /** The result of an operation that may throw. */
  datatype Result<+R, +E> = Success(value: R) | Failure(error: E)

  /** The result of an operation that only has an effect, or throws. */
  datatype Outcome<+E> = Pass | Fail(error: E)
}
