/** Optional values: `None` stands for the source's `null` or `undefined`. */
module Wrappers {
  datatype Option<+T> = None | Some(value: T)
}
