/** Optional values and results with an error channel, shared by the other modules. */
module Wrappers {

  /** `None` stands for JavaScript's missing value (`undefined`). */
  datatype Option<+T> = None | Some(value: T)

  /** A computation that either produced a value or raised an error. */
  datatype Result<+T, +E> = Success(value: T) | Failure(error: E)
}
