/** Optional values, used where the source's parse can fail. */
module Wrappers {
  datatype Option<+T> = None | Some(value: T)
}
