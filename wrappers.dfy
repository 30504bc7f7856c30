/** Optional values, used for cache lookups and for reading numerals back. */
module Wrappers {
  datatype Option<+T> = None | Some(value: T) {
    /** The held value, or `default` when there is none. */
    function GetOr(default: T): T {
      match this
      case Some(v) => v
      case None => default
    }
  }
}
