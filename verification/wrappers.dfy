/** Option and Result, for the Go code's nil pointers and error returns. */
module Wrappers {

  datatype Option<+T> = None | Some(value: T)

  /** An operation's result: a value, or the error the Go code returns. */
  datatype Result<+T, +E> = Ok(value: T) | Err(error: E)
}
