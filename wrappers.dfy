/** Optional values: a field that may be empty, a lookup that may miss, an error that may be absent. */
module Wrappers {
  datatype Option<+T> = None | Some(value: T)
}
