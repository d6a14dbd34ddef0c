/** Optional values, used where the source has `null`/`undefined`. */
module Wrappers {

  datatype Option<+T> = None | Some(value: T)
}
