/** Option and Result, used for JavaScript's null-returning and throwing lookups. */
module Wrappers {
  datatype Option<T> = None | Some(value: T)

  datatype Result<T, E> = Success(value: T) | Failure(error: E)
}
