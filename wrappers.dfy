/** Optional values and success/failure results, used where the source has
    `null`/`undefined` or throws. */
module Wrappers {

  datatype Option<+T> = None | Some(value: T)

  datatype Result<+R, +E> = Success(value: R) | Failure(error: E)
}
