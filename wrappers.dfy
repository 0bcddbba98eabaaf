/** Option and Result: absent values and the exceptions the source raises. */
module Wrappers {

  datatype Option<+T> = None | Some(value: T)

  /** `Failure` stands for a Python exception; its payload says which one. */
  datatype Result<+R, +E> = Success(value: R) | Failure(error: E)
}
