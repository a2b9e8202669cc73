/** Option and Result, the shapes the screens use for "maybe a record" and "data or an error". */
module Wrappers {

  datatype Option<+T> = None | Some(value: T)

  datatype Result<+R, +E> = Success(value: R) | Failure(error: E)
}
