/** Optional values: an empty form field, a result not yet computed. */
module Wrappers {
  datatype Option<+T> = None | Some(value: T)
}
