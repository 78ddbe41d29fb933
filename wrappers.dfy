/** Optional values: a request or a decode that may fail, a field that may be absent. */
module Wrappers {

  datatype Option<+T> = None | Some(value: T)
}
