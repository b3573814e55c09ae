/** Optional values: the JavaScript `null`/`undefined` a variable may hold. */
module Wrappers {
  datatype Option<+T> = None | Some(value: T)
}
