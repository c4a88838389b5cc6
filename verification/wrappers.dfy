/** Optional values: a numeric form field that parses, or one that does not. */
module Wrappers {

  datatype Option<+T> = None | Some(value: T)
}
