/** Optional values and error returns, standing in for Go's `(value, error)` pairs. */
module Outcomes {

  datatype Option<T> = None | Some(value: T)

  /** `Ok` is a call that returned a nil error; `Err` carries the error's message. */
  datatype Result<T> = Ok(value: T) | Err(msg: string)
}
