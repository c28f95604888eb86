/** Optional values: `None` for a missing JSON key, a JavaScript `NaN` or a `null` state. */
module Wrappers {

  datatype Option<+T> = None | Some(value: T)
}
