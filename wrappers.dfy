/** Option and Result values for absent fields, missing records and error replies. */
module Wrappers {

  /** A value that may be absent (an optional schema field, an undefined request field). */
  datatype Option<+T> = None | Some(value: T)

  /** Either a successful value or an error value. */
  datatype Result<+R, +E> = Success(value: R) | Failure(error: E)
}
