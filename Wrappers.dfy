/** An optional value: JavaScript's `undefined`/`null` against a present one. */
module Wrappers {

  datatype Option<+T> = None | Some(value: T) {

    /** `x ?? d` (and `x || d` where the only falsy value is the missing one). */
    function GetOr(default: T): T
    {
      match this
      case Some(v) => v
      case None => default
    }
  }
}
