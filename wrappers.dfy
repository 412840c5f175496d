/** Optional values: a lookup that found nothing, a field that is absent, a parse that failed. */
module Wrappers {

  datatype Option<+T> = None | Some(value: T) {

    /** The value inside Some, or `default` for None. */
    function GetOr(default: T): T {
      match this
      case Some(v) => v
      case None => default
    }
  }
}
