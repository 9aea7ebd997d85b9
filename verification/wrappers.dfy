/** Option and Result datatypes shared by the validators and the admin workflow. */
module Wrappers {

  /** A value that may be absent: a JavaScript `undefined` or a PHP `null` form field. */
  datatype Option<+T> = None | Some(value: T)

  /** The outcome of a validation: the accepted value or the reasons it was refused. */
  datatype Result<+T, +E> = Success(value: T) | Failure(error: E)
}
