/** Optional values: the model of a Python value that may be `None`, or of a
    dictionary key that may be absent (`d.get(key, default)`). */
module Wrappers {

  datatype Option<+T> = None | Some(value: T) {

    /** The value, or `default` when there is none: `d.get(key, default)`. */
    function GetOr(default: T): T
    {
      match this
      case Some(v) => v
      case None => default
    }
  }
}
