/** Optional values and results used throughout the model. */
module Wrappers {

  /** An optional value: `None` stands for JavaScript's `undefined`. */
  datatype Option<+T> = None | Some(value: T)

  /** The outcome of an operation that may throw: `Failure` carries the
      message of the `Error` the source throws. */
  datatype Result<+R, +E> = Success(value: R) | Failure(error: E)
}
