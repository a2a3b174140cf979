/** Shared result types and the few Python built-ins the meter relies on. */
module Base {

  datatype Option<+T> = None | Some(value: T)

  /** The Python exceptions a modelled operation can raise. */
  datatype PyError =
    | ZeroDivisionError   // division by a zero count, row or column number
    | ValueError          // min() of an empty list
    | AssertionError      // a failed `assert` in the source
    | AttributeError      // an attribute looked up on None or on a class that lacks it

  datatype Result<+T> = Success(value: T) | Failure(error: PyError)

  datatype Outcome = Pass | Fail(error: PyError)

  function Max(a: int, b: int): int { if a < b then b else a }

  function MaxReal(a: real, b: real): real { if a < b then b else a }

  function MinReal(a: real, b: real): real { if a < b then a else b }
}
