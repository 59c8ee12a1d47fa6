/** Optional values: JavaScript's `undefined`/`null` wherever the source tests for them. */
module Wrappers {

  datatype Option<+T> = None | Some(value: T) {

    /** The value, or `default` when absent: the nullish-coalescing operator `??`. */
    function GetOr(default: T): T {
      match this
      case Some(v) => v
      case None => default
    }
  }

  /** The outcome of one remote call: its result, or a failure with the thrown message. */
  datatype CallOutcome<+T> = Ok(result: T) | Fail(reason: string)

  /** A thrown JavaScript value: an `Error` instance (an `ApiError` being one kind) or anything else. */
  datatype Thrown =
    | ErrorInstance(message: string, isApiError: bool)
    | NonErrorValue

  /** What `Number(text)` gives for a string: the conversion itself is the runtime's. */
  datatype JsNumber = NaN | PosInfinity | NegInfinity | Finite(value: real) {

    predicate IsFinite() { Finite? }

    /** `Number.isInteger`. */
    predicate IsInteger() { Finite? && value == value.Floor as real }
  }

  function MaxInt(a: int, b: int): int { if a >= b then a else b }
  function MinInt(a: int, b: int): int { if a <= b then a else b }
  function MaxReal(a: real, b: real): real { if a >= b then a else b }
  function MinReal(a: real, b: real): real { if a <= b then a else b }
}
