/** Failure-carrying results for the operations of the building network.
    Every exception the Python code raises becomes a `Failure` (or `Fail`)
    carrying the exception's kind; every normal return becomes `Success`. */
module Wrappers {

  datatype Option<+T> = None | Some(value: T)

  /** The kinds of exception the modelled code raises. */
  datatype Error =
    | ValueError(reason: string)
    | ZeroDivisionError
    | IndexError
    | AttributeError(name: string)

  datatype Result<+T> = Success(value: T) | Failure(error: Error)

  /** The outcome of an operation that returns nothing (Python `None`). */
  datatype Outcome = Pass | Fail(error: Error)

  function Min(a: real, b: real): real { if a <= b then a else b }

  function Max(a: real, b: real): real { if a >= b then a else b }

  function Abs(a: real): real { if a >= 0.0 then a else -a }
}
