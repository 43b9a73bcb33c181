/** Option and Result, the failure-carrying values the other modules return
    in place of Python's exceptions. */
module Wrappers {

  datatype Option<+T> = None | Some(value: T)

  /** Either the value a call returns, or the exception it raises. */
  datatype Result<+T, +E> = Ok(value: T) | Err(error: E)
}
