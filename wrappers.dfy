/** Optional values, used where the source returns early or yields no choice. */
module Wrappers {
  datatype Option<+T> = None | Some(value: T)
}
