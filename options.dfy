/** Optional values, standing for the source's `null`/`undefined` fields. */
module Options {
  datatype Option<+T> = None | Some(value: T)
}
