/** Optional values: `None` stands for JavaScript's `undefined`/`null`, or for a
    `parseFloat`/`parseInt` that produced `NaN`. */
module Wrappers {

  datatype Option<+T> = None | Some(value: T) {

    /** The value if present, otherwise `default`. */
    function GetOr(default: T): T {
      match this
      case Some(v) => v
      case None => default
    }
  }
}
