/** Optional values: JavaScript's `undefined` (or `null`) next to a present value. */
module Wrappers {

  datatype Option<T> = None | Some(value: T) {

    /** The value, or `default` when absent: the `??` operator. */
    function GetOr(default: T): T {
      match this
      case Some(v) => v
      case None => default
    }
  }

  function Min(a: int, b: int): int { if a <= b then a else b }

  function Max(a: int, b: int): int { if a >= b then a else b }
}
