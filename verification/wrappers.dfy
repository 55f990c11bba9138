/** Optional values, used where the source falls back to `undefined`. */
module Wrappers {
  datatype Option<+T> = None | Some(value: T)
}
