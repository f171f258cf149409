/** Optional values: a Go `error` that may be nil, a marker that may not parse. */
module Wrappers {
  datatype Option<+T> = None | Some(value: T)
}
