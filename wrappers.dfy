/** Optional values: the model's stand-in for a C pointer that may be NULL. */
module Wrappers {

  datatype Option<+T> = None | Some(value: T) {

    /** The value if present, otherwise `default`. */
    function GetOr(default: T): T {
      match this
      case Some(v) => v
      case None => default
    }
  }
}
