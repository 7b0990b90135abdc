/** Optional values: a dictionary key that may be absent, a date that may be None. */
module Options {
  datatype Option<T> = None | Some(value: T)

  /** `d.get(key, default)` on an optional value. */
  function GetOr<T>(o: Option<T>, default: T): T
  {
    if o.Some? then o.value else default
  }
}
