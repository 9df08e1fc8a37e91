/** The Python exceptions the modelled code raises or catches, and the
    outcome types that stand in for "returns a value or raises". */
module Wrappers {

  /** The exception classes that matter to the callers in the model. */
  datatype Error =
    | ZeroDivisionError
    | TypeError
    | ValueError
    | AttributeError
    | JsonDecodeError
    | RuntimeError(message: string)

  /** A call that either returns `value` or raises `error`. */
  datatype Result<+T> = Ok(value: T) | Err(error: Error)

  datatype Option<+T> = None | Some(value: T)
}
