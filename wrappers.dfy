/** Optional values, standing for the `null`/`undefined` results of the store's lookups. */
module Wrappers {

  datatype Option<+T> = None | Some(value: T)
}
