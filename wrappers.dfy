/** Optional values, used for components an entity may or may not carry. */
module Wrappers {

  datatype Option<+T> = None | Some(value: T) {

    /** The value carried, or `default` when there is none. */
    function GetOr(default: T): T
    {
      match this
      case Some(v) => v
      case None => default
    }
  }
}
