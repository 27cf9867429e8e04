/** Optional values: a JavaScript value that may be `null`/`undefined`, or a
    regular-expression match that may fail. */
module Wrappers {
  datatype Option<+T> = None | Some(value: T) {
    function GetOr(default: T): T {
      match this
      case Some(v) => v
      case None => default
    }
  }
}
