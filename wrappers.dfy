/** Optional values and results with an error, used wherever the Go code returns (value, error). */
module Wrappers {
  datatype Option<T> = None | Some(value: T)

  datatype Result<T, E> = Ok(value: T) | Err(error: E)
}
