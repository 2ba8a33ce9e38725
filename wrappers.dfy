/** Outcome types shared by the whole model: an optional value, and a result that is
    either a value or the Python exception the server would raise. */
module Wrappers {

  datatype Option<+T> = None | Some(value: T)

  datatype Result<+T, +E> = Success(value: T) | Failure(error: E)

  /** The two exception classes the server's handlers can raise. */
  datatype PyError =
    | ValueError(message: string)
    | AttributeError(message: string)
}
