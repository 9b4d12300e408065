/** Failure-carrying results that stand in for the Python exceptions raised by the evaluation code. */
module Outcomes {
  datatype Option<+T> = None | Some(value: T)

  datatype Result<+T, +E> = Ok(value: T) | Err(error: E)

  /** The exceptions raised along the paths this model follows. */
  datatype Exception =
    | KeyError(key: string)
    | ValueError(message: string)
    | IndexError
    | TypeError(message: string)
    | ZeroDivisionError
    | UnboundLocalError(name: string)
    | AttributeError(name: string)
}
