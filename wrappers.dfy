/** Optional values: `undefined`, `null` or absent in the modelled code. */
module Wrappers {

  datatype Option<+T> = None | Some(value: T)
}
