/** Optional values and results with an error, used where the source has
    `null`/`undefined`, a missing key, or an exception. */
module Wrappers {

  datatype Option<+T> = None | Some(value: T)

  datatype Result<+T, +E> = Success(value: T) | Failure(error: E)
}
