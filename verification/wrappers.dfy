/** Failure-compatible wrappers shared by every module of the model, and the
    exception taxonomy the Python package raises. */
module Wrappers {

  /** Python's `None` or a present value. */
  datatype Option<+T> = None | Some(value: T) {

    /** Returns the value encapsulated in Some or a default value if None */
    function GetOr(default: T): T {
      match this
      case Some(v) => v
      case None => default
    }
  }

  /** The Python exception class an operation raises, with its message or key. */
  datatype Error =
    | ValueError(msg: string)
    | KeyError(key: string)
    | IndexError(msg: string)
    | AssertionError
    | TypeError(msg: string)
    | Exception(msg: string)
    | OSError(msg: string)
    | AttributeError(msg: string)

  /** Either the value an operation returns or the exception it raises. */
  datatype Result<+T> = Ok(value: T) | Err(error: Error) {

    predicate IsFailure() {
      Err?
    }

    function PropagateFailure<U>(): Result<U>
      requires Err?
    {
      Err(error)
    }

    function Extract(): T
      requires Ok?
    {
      value
    }
  }
}
