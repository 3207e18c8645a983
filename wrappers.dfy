/** Optional values: `undefined` in the original becomes `None`. */
module Wrappers {
  datatype Option<+T> = None | Some(value: T)
}
