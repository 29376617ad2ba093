/** Option and Result, used for optional record fields, absent storage
    entries and the error that `useTheme` throws. */
module Wrappers {

  datatype Option<+T> = None | Some(value: T)

  datatype Result<+R, +E> = Ok(value: R) | Err(error: E)
}
