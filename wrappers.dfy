/** Option and Result values for the operations that the Python code lets
    fall through to `None` or abort with an exception. */
module Wrappers {

  datatype Option<+T> = None | Some(value: T)

  datatype Result<+T, +E> = Ok(value: T) | Err(error: E)
}
