/** Optional values and results with an error message, the two shapes every Go `(T, error)`
  * pair and every nil-able pointer of the modelled code takes here. */
module Wrappers {

  datatype Option<T> = None | Some(value: T)

  datatype Result<T, E> = Success(value: T) | Failure(error: E)
}
