/** Optional values and fallible results, as the Go code's `(value, error)` pairs. */
module Wrappers {
  datatype Option<T> = None | Some(value: T)

  datatype Result<T, E> = Ok(value: T) | Err(error: E)
}
