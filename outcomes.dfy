/** Failure-compatible wrappers and the Python exceptions the modelled code raises. */
module Outcomes {

  datatype Option<T> = None | Some(value: T)

  datatype Result<T, E> = Success(value: T) | Failure(error: E)

  /** The exceptions raised by the generators and the evaluation facade, with their messages. */
  datatype PyError =
    | TypeError(message: string)
    | ValueError(message: string)
    | KeyError(message: string)
    | AssertionError
    | IndexError
    | NameError(name: string)
}
