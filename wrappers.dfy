/** Option and Result values standing for Go's nil pointers and (value, error) pairs. */
module Wrappers {

  datatype Option<T> = None | Some(value: T)

  /** A call that either yields a value or fails with the text of a Go `error`. */
  datatype Result<T> = Ok(value: T) | Err(error: string)
}
