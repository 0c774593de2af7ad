/** Optional values, used wherever the source returns None or an empty match. */
module Wrappers {

  datatype Option<+T> = None | Some(value: T)
}
