/** Optional values, used wherever the monitored program may see `null`,
    `undefined` or a missing property. */
module Wrappers {

  datatype Option<+T> = None | Some(value: T) {

    /** `value ?? fallback`: the held value, or the fallback when there is none. */
    function GetOr(fallback: T): T {
      match this
      case Some(v) => v
      case None => fallback
    }
  }
}
