/** Optional values: a key that a response may or may not carry. */
module Options {

  datatype Option<T> = None | Some(value: T) {

    /** The value, or the given default when there is none (Python's `dict.get(key, default)`). */
    function GetOr(default: T): T
    {
      match this
      case Some(v) => v
      case None => default
    }
  }
}
