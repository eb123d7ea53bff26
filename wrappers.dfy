/** Option and Result, standing in for the null returns and the
    -1 / NaN "could not parse" sentinels. */
module Wrappers {

  datatype Option<+T> = None | Some(value: T)

  datatype Result<+T, +E> = Ok(value: T) | Err(error: E)
}
