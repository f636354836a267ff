/** The JavaScript values the pages test and convert: numbers (which may be NaN or infinite)
    and possibly-nullish fields read from a ledger response. */
module JsValues {

  /** A JavaScript number. Dafny's equality on it is JavaScript's SameValueZero
      (NaN equals NaN, and there is a single zero), the equality a `Set` uses. */
  datatype JsNumber = NaN | Infinity(negative: bool) | Finite(value: real)

  /** `!n` is false for a number exactly when it is neither NaN nor zero. */
  predicate IsTruthy(n: JsNumber) {
    !n.NaN? && n != Finite(0.0)
  }

  /** `Number.isFinite(n) && n > 0`. */
  predicate IsPositiveFinite(n: JsNumber) {
    n.Finite? && n.value > 0.0
  }

  /** A field of an untyped response object: missing, `null`, or a number. */
  datatype Field = Undefined | Null | Num(n: JsNumber)

  /** `a ?? b`. */
  function Coalesce(a: Field, b: Field): (r: Field)
    ensures r == a || r == b
    ensures a.Num? ==> r == a
  {
    if a.Undefined? || a.Null? then b else a
  }

  /** `Number(f)`: `undefined` converts to NaN, `null` to zero. */
  function ToNumber(f: Field): JsNumber {
    match f
    case Undefined => NaN
    case Null => Finite(0.0)
    case Num(n) => n
  }
}
