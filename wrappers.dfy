/** Optional values, shared by every module of the model. */
module Wrappers {

  /** A value that may be absent: Python's None, a lookup that found nothing,
      or a file that does not exist. */
  datatype Option<+T> = None | Some(value: T) {

    /** The value, or `default` when there is none. */
    function GetOr(default: T): T {
      match this
      case Some(v) => v
      case None => default
    }
  }
}
