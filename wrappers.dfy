/** Optional values and success-or-failure results, used for a batch's
    optional arrival date and for the outcome of the allocation selector. */
module Wrappers {

  datatype Option<+T> = None | Some(value: T)

  datatype Result<+T, +E> = Success(value: T) | Failure(error: E)
}
