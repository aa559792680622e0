/** The exceptions the modelled Python code raises, and a result type that
    carries either a value or one of them. numpy reports an array that
    cannot be broadcast into a slot of another shape as a ValueError, the
    same exception as a failed tuple unpacking. */
module Outcomes {

  datatype Error =
    | ValueError
    | AssertionError
    | KeyError
    | AttributeError
    | RuntimeError
    | IndexError

  datatype Result<T> = Ok(value: T) | Err(error: Error)

  datatype Option<T> = None | Some(value: T)
}
