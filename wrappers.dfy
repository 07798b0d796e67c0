/** Optional values and results with an error, used wherever the system
    returns "a value or nothing" or "a value or a status". */
module Wrappers {

  datatype Option<+T> = None | Some(value: T)

  datatype Result<+T, +E> = Success(value: T) | Failure(error: E)
}
