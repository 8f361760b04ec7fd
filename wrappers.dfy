/** Optional values, for the app's `undefined` and missing response fields. */
module Wrappers {

  datatype Option<+T> = None | Some(value: T)
}
