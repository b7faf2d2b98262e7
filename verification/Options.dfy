/** Optional values: a Go pointer or error that may be nil, a value with an ok flag. */
module Options {
  datatype Option<+T> = None | Some(value: T)
}
