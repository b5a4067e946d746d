/** Optional values and success-or-error results, used for the fetch outcome
    and for reading a page number back out of a request URL. */
module Wrappers {
  datatype Option<+T> = None | Some(value: T)

  datatype Result<+R, +E> = Success(value: R) | Failure(error: E)
}
