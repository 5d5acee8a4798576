/** Optional values and success-or-error outcomes, used wherever the modelled
    code reads a possibly-undefined property (`x ?? d`) or throws. */
module Wrappers {

  /** A JavaScript value that may be `undefined`: `None` is undefined. */
  datatype Option<+T> = None | Some(value: T) {

    /** The `??` operator: the held value, or `default` when undefined.
        Unlike `||`, a present `false` or `0` is kept. */
    function GetOr(default: T): (r: T)
      ensures Some? ==> r == value
      ensures None? ==> r == default
    {
      match this
      case Some(v) => v
      case None => default
    }
  }

  /** Either a produced value or a thrown error. */
  datatype Result<+R, +E> = Success(value: R) | Failure(error: E)
}
