/** Optional values and results shared by the form workflow and the user service. */
module Basics {

  /** A value that may be absent: JavaScript's null/undefined, Java's null. */
  datatype Option<+T> = None | Some(value: T)

  /** The outcome of an operation that either returns a value or fails. */
  datatype Result<+T, +E> = Success(value: T) | Failure(error: E)
}
