/** Optional values and success-or-failure results, used for the optional
    workspace name, the optional error cell and the outcome of a fetch. */
module Wrappers {

  datatype Option<+T> = None | Some(value: T)

  datatype Result<+T, +E> = Success(value: T) | Failure(error: E)
}
