/** Optional values: JavaScript's `null`/`undefined` and Python's absent dictionary key. */
module Wrappers {

  datatype Option<+T> = None | Some(value: T)
}
