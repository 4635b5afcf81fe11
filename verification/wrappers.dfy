/** Optional values and failure results, used for JavaScript's `undefined`/`null`
    fields and for operations that may throw. */
module Wrappers {

  datatype Option<+T> = None | Some(value: T)

  datatype Result<+R, +E> = Success(value: R) | Failure(error: E)
}
