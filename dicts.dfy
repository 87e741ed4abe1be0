/** The saved records are Python dicts read with `data.get(key, default)`. A record field
    of type Option stands for one key: None when the key is missing. */
module Dicts {
  datatype Option<T> = None | Some(value: T) {
    /** `dict.get(key, default)`. */
    function GetOr(default: T): (r: T)
      ensures Some? ==> r == value
      ensures None? ==> r == default
    {
      match this
      case Some(v) => v
      case None => default
    }
  }
}
