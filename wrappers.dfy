/** Optional values, used wherever the source returns "nothing" or an absent error. */
module Wrappers {
  datatype Option<+T> = None | Some(value: T)
}
