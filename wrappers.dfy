/** Optional values, used where the source either produces a value or skips a case. */
module Wrappers {
  datatype Option<+T> = None | Some(value: T)
}
