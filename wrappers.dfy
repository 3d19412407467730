/** Optional values: a parse result that may be missing, a stored value that may be absent. */
module Wrappers {
  datatype Option<+T> = None | Some(value: T)
}
