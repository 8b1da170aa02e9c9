/** Optional values: Python's `None` for an argument or field that may be absent. */
module Wrappers {
  datatype Option<+T> = None | Some(value: T)
}
