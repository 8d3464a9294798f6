/** Option and Result values shared by the ledger modules. */
module Wrappers {

  /** A value that may be absent. */
  datatype Option<+T> = None | Some(value: T)

  /** Either a computed value or an error description. */
  datatype Result<+R, +E> = Success(value: R) | Failure(error: E)
}
