/** Optional values: a JavaScript property that may be undefined or null. */
module Optional {
  datatype Option<T> = None | Some(value: T)
  {
    /** `x ?? fallback` in JavaScript terms. */
    function GetOr(fallback: T): T
    {
      if Some? then value else fallback
    }
  }
}
