/** Optional values and results with an error, used for host lookups that may
    come back empty and for argument checks that may fail. */
module Wrappers {

  datatype Option<+T> = None | Some(value: T)

  datatype Result<+R, +E> = Success(value: R) | Failure(error: E)
}
