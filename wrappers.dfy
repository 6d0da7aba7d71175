/** Optional values: a JavaScript `null` or an absent value is `None`. */
module Wrappers {
  datatype Option<+T> = None | Some(value: T)
}
