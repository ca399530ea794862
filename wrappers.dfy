/** Optional values: a parse that may fail, a store slot that may be empty. */
module Wrappers {
  datatype Option<+T> = None | Some(value: T)
}
