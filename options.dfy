/** Optional values: Python's `Optional[T]`, where `None` is the absent value. */
module Options {

  datatype Option<T> = None | Some(value: T)
  {
    function GetOr(default: T): T
    {
      if Some? then value else default
    }
  }
}
