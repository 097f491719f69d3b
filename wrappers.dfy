/** Optional values, for the record fields that the widgets leave unset. */
module Wrappers {

  datatype Option<+T> = None | Some(value: T)
}
