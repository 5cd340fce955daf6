/** Optional values and the exceptions the modelled Python code raises. */
module Wrappers {

  datatype Option<+T> = None | Some(value: T) {
    function GetOr(default: T): T {
      match this
      case Some(v) => v
      case None => default
    }
  }

  /** The Python exception classes that the core raises, with their messages where they matter. */
  datatype Error =
    | KeyError(key: string)
      /** A KeyError raised by looking up an integer key: an annotation id in the accumulator, or an
          arg-max id in `id_to_label`. */
    | UnknownId(id: int)
    | ValueError(message: string)
    | TypeError(message: string)
    | IndexError
    | AssertionError(message: string)
    | AttributeError(name: string)
    | NotImplementedError
      /** Reading a local variable that was never assigned. */
    | UnboundLocalError(name: string)
    | Exception(message: string)

  /** A computation that either returns a value or raises one of the exceptions above. */
  datatype Result<+T> = Success(value: T) | Failure(error: Error) {
    predicate IsFailure() {
      Failure?
    }

    function PropagateFailure<U>(): Result<U>
      requires Failure?
    {
      Failure(error)
    }

    function Extract(): T
      requires Success?
    {
      value
    }
  }

  /** A computation that returns nothing or raises. */
  datatype Outcome = Pass | Fail(error: Error) {
    predicate IsFailure() {
      Fail?
    }

    function PropagateFailure<U>(): Result<U>
      requires Fail?
    {
      Failure(error)
    }
  }
}
