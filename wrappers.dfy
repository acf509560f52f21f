/** Optional values, used for nullable JavaScript values and absent rows. */
module Wrappers {
  datatype Option<+T> = None | Some(value: T)
}
