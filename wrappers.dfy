/**
 * Option and Result, and the JavaScript errors the modelled code can raise.
 * An argument the JavaScript caller may omit (or pass as a falsy value) is an
 * Option; an operation that can throw returns a Result.
 */
module Wrappers {

  datatype Option<+T> = None | Some(value: T)

  datatype Result<+R> = Success(value: R) | Failure(error: Error)

  /** The exceptions thrown by the modelled code. */
  datatype Error =
    | DistanceMismatch    // Util's own Error: "Cannot compute distance between ..."
    | ReduceOfEmptyArray  // TypeError from Array.prototype.reduce with no initial value
    | ReadOfUndefined     // TypeError from reading a property of `undefined`

  /** JavaScript truthiness of a number that may be absent: 0 and undefined are falsy. */
  predicate Truthy(x: Option<real>)
  {
    x.Some? && x.value != 0.0
  }

  /** `x || fallback` for a number that may be absent. */
  function NumberOr(x: Option<real>, fallback: real): (r: real)
    ensures Truthy(x) ==> r == x.value
    ensures !Truthy(x) ==> r == fallback
  {
    if Truthy(x) then x.value else fallback
  }

  /** `v || fallback` for an array that may be absent: every array is truthy, even an empty one. */
  function VectorOr(v: Option<seq<real>>, fallback: seq<real>): (r: seq<real>)
    ensures v.Some? ==> r == v.value
    ensures v.None? ==> r == fallback
  {
    if v.Some? then v.value else fallback
  }
}
