/** Failure-carrying values shared by the whole model. */
module Wrappers {

  datatype Option<+T> = None | Some(value: T)

  datatype Result<+T, +E> = Success(value: T) | Failure(error: E)

  /** Go's `(T, error)` return pair: the value is returned even when `err` is set. */
  datatype Returned<+T, +E> = Returned(value: T, err: Option<E>)
}
