/** Optional values: a JSON key that may be absent, a form field that may hold no data. */
module Wrappers {

  datatype Option<+T> = None | Some(value: T)
}
