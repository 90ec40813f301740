/** Optional values and results with an error, for the lookups and calls of
    the trainer that raise in the source. */
module Wrappers {

  datatype Option<T> = None | Some(value: T)

  datatype Result<T, E> = Success(value: T) | Failure(error: E)
}
