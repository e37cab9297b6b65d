/** Optional values: a Dash property that may be unset (None). */
module Wrappers {

  datatype Option<+T> = None | Some(value: T)
}
