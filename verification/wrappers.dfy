/** Option and Result, the two failure-carrying datatypes the model uses. */
module Wrappers {

  /** `None` stands for Python's `None` returned by a lookup that found nothing. */
  datatype Option<+T> = None | Some(value: T)

  /** `Failure` stands for an exception that escapes the request handler. */
  datatype Result<+R, +E> = Success(value: R) | Failure(error: E)
}
