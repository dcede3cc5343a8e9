/** Option and Result, the model's stand-ins for Go's nil pointers and (value, error) pairs. */
module Wrappers {

  datatype Option<+T> = None | Some(value: T)

  /** A Go `(value, error)` pair where the error is a message. */
  datatype Result<+T> = Ok(value: T) | Err(msg: string)
}
