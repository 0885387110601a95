/** Optional values and results with an error, shared by the other modules. */
module Wrappers {

  /** A value or nothing; None stands for a Java null. */
  datatype Option<T> = None | Some(value: T)

  /** A value, or the reason the operation was abandoned (a Java exception). */
  datatype Result<T, E> = Success(value: T) | Failure(error: E)
}
