/** Option and Result: the two-valued returns of Go functions (`value, ok` and `value, err`). */
module Wrappers {

  datatype Option<+T> = None | Some(value: T)

  datatype Result<+T, +E> = Ok(value: T) | Err(error: E)
}
