/** Failure-carrying wrappers used throughout the model. */
module Wrappers {

  /** An optional value: the source's `None`. */
  datatype Option<T> = None | Some(value: T)

  /** Either a computed value or the error the source would raise. */
  datatype Result<T, E> = Success(value: T) | Failure(error: E)
}
