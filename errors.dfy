/** Failure-carrying values shared by every module: the Python exceptions the
    library raises become the `Raised` case of a result. */
module Errors {

  datatype Option<+T> = None | Some(value: T)

  /** The exception classes the modelled code raises, with their messages. */
  datatype Exception =
    | ValueError(message: string)
    | AttributeError(message: string)

  /** The value of a call that either returns `value` or raises `error`. */
  datatype Result<+T> = Ok(value: T) | Raised(error: Exception)

  /** The value of a call that returns nothing or raises `error`. */
  datatype Outcome = Pass | Fail(error: Exception)
}
