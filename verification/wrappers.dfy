/** Optional values and fallible results, used wherever the source has a
    missing value, a thrown error or a rejected promise. */
module Wrappers {

  datatype Option<+T> = None | Some(value: T)

  datatype Result<+T, +E> = Success(value: T) | Failure(error: E)
}
