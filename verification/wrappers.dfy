/** Option and Result datatypes used for parse results and load failures. */
module Wrappers {

  /** An optional value: the `(value, ok)` pair of the source collapsed into one value. */
  datatype Option<+T> = None | Some(value: T)

  /** Either a computed value or the error that stopped the computation. */
  datatype Result<+R, +E> = Success(value: R) | Failure(error: E)
}
