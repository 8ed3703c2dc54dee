/** Option and Result, and the Python exception kinds that the modelled code
    raises or lets escape. */
module Wrappers {

  datatype Option<+T> = None | Some(value: T)

  /** The exceptions the modelled code raises. A `KeyError` carries the key
      that was looked up, rendered as text. */
  datatype Exception =
    | KeyError(key: string)
    | ValueError
    | AttributeError
    | FileNotFoundError
    | FileExistsError
    | EOFError

  /** A computation that returns a value or raises an exception. */
  datatype Result<+T> = Ok(value: T) | Err(error: Exception)
}
