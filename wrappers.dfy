/** Optional values and success-or-error results shared by the other modules. */
module Wrappers {

  /** A value that may be absent (Java's `null`, JavaScript's `undefined`). */
  datatype Option<+T> = None | Some(value: T)

  /** A normal return carrying a value, or a raised error. */
  datatype Result<+R, +E> = Success(value: R) | Failure(error: E)
}
