/** Optional values, used for the source's `error` returns (None is a nil error). */
module Wrappers {
  datatype Option<+T> = None | Some(value: T)
}
