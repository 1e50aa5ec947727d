/** Optional values and success-or-error results, used for the store's lookups
    and for the controller's JSON error responses. */
module Wrappers {

  datatype Option<+T> = None | Some(value: T)

  datatype Result<+T, +E> = Success(value: T) | Failure(error: E)
}
