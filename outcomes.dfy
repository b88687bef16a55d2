/**
 * Python exceptions raised by the modelled navigation code.  A call that would
 * raise returns `Raise(fault)`; a call that completes returns `Ok(value)`.
 * `Outcome` is failure-compatible, so `:-` propagates a raise the way Python
 * unwinds the stack.
 */
module Outcomes {

  datatype Fault =
    | ZeroDivisionError   // float division by zero
    | MathDomainError     // ValueError("math domain error") from math.sqrt, acos, asin or log
    | IndexError          // a list index out of range
    | ValueError          // float() of a string that is not a number
    | TrackAbove85        // the Exception raised by Geometry.calculateHeading

  datatype Outcome<+T> = Ok(value: T) | Raise(fault: Fault) {

    predicate IsFailure() {
      Raise?
    }

    function PropagateFailure<U>(): Outcome<U>
      requires Raise?
    {
      Raise(fault)
    }

    function Extract(): T
      requires Ok?
    {
      value
    }
  }
}
