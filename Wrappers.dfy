/** Option and Result, for searches that can fail and for the program's
    fatal exits. */
module Wrappers {
  datatype Option<T> = None | Some(value: T)

  datatype Result<T, E> = Ok(value: T) | Err(error: E)
}
