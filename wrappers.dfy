/** Optional values: `null` and `undefined` in the modelled code. */
module Wrappers {

  datatype Option<+T> = None | Some(value: T)
}
