/** The optional value used for "tag id or None" and for absent JSON fields. */
module Options {
  datatype Option<T> = None | Some(value: T)
  {
    /** The carried value, or `default` when there is none (Python's `dict.get(key, default)`). */
    function GetOr(default: T): (r: T)
      ensures Some? ==> r == value
      ensures None? ==> r == default
    {
      match this
      case Some(v) => v
      case None => default
    }
  }
}
