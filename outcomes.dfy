/** Python's exceptions, as far as the prediction module raises or propagates them,
    and the Result/Option wrappers that carry them instead of raising. */
module Outcomes {

  /** The exceptions that reach a caller of the prediction functions. */
  datatype Error =
    | ValueError(message: string)
    | TypeError(message: string)
    | KeyError(key: string)
    | FileNotFoundError(message: string)
    | UnboundLocalError(name: string)
    | ZeroDivisionError
    /** any other exception raised inside a collaborator (TensorFlow, nibabel, numpy) */
    | Raised(cause: string)

  /** A value, or the exception raised while computing it. */
  datatype Result<+T> = Ok(value: T) | Err(error: Error)

  datatype Option<+T> = None | Some(value: T)
}
