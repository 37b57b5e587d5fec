/** Optional values, standing for TypeScript's `undefined`/`null` and the `??` operator. */
module Wrappers {

  datatype Option<+T> = None | Some(value: T) {

    /** `this ?? default` when the default is a plain value. */
    function GetOr(default: T): T {
      match this
      case Some(v) => v
      case None => default
    }

    /** `this ?? other` when the right operand may itself be nullish. */
    function Or(other: Option<T>): Option<T> {
      if Some? then this else other
    }
  }

  /** The two-step chain `first ?? second ?? last`: the first operand that is
      not nullish, or `last` when both are. */
  function Coalesce<T>(first: Option<T>, second: Option<T>, last: T): (r: T)
    ensures first.Some? ==> r == first.value
    ensures first.None? && second.Some? ==> r == second.value
    ensures first.None? && second.None? ==> r == last
  {
    first.Or(second).GetOr(last)
  }
}
