/** Optional values: a missing selection, an unparsable number. */
module Wrappers {

  datatype Option<+T> = None | Some(value: T)
}
