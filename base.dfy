/** Shared result types: Python's `None`, and an operation's value or the exception it raises. */
module Base {

  datatype Option<T> = None | Some(value: T)

  /** The Python exception classes the refinement engine can raise, by name. */
  datatype Error =
    | ValueError
    | IndexError
    | KeyError
    | TypeError
    | AttributeError
    | RuntimeError
    | NotImplementedError

  /** The value an operation returns, or the exception it raises instead. */
  datatype Result<T> = Ok(value: T) | Err(error: Error)
}
