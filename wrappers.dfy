/** Option and Result: an absent value (numpy's NaN) and an operation that may
    raise instead of returning. */
module Wrappers {

  datatype Option<+T> = None | Some(value: T)

  datatype Result<+T, +E> = Ok(value: T) | Err(error: E)
}
