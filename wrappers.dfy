/** Option and Result, used for PHP's nullable values and for thrown exceptions. */
module Wrappers {

  datatype Option<+T> = None | Some(value: T)

  /** `Failure` stands for an exception the PHP code throws. */
  datatype Result<+T, +E> = Ok(value: T) | Failure(error: E)
}
