/** Optional values: PHP's `null` next to a value of some other type. */
module Wrappers {

  datatype Option<+T> = None | Some(value: T)
}
