/** Optional values and success/failure results used across the model. */
module Wrappers {

  /** A value that may be absent: a probe that failed, a random draw that errored. */
  datatype Option<+T> = None | Some(value: T)

  /** The outcome of a step that either yields a value or reports why it could not. */
  datatype Result<+R, +E> = Success(value: R) | Failure(error: E)
}
