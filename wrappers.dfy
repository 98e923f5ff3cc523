/** Optional values, for the Go code's (ok, value) pairs and nil errors. */
module Wrappers {
  datatype Option<+T> = None | Some(value: T)
}
