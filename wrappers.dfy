/** Optional values, standing in for `undefined`, `null` and absent records. */
module Wrappers {
  datatype Option<+T> = None | Some(value: T)
}
