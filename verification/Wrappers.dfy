/** Optional values: the source's zero strings and zero times. */
module Wrappers {
  datatype Option<+T> = None | Some(value: T)
}
