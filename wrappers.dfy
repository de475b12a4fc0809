/** Optional values, for keys and list positions that may be absent in a parsed document. */
module Wrappers {

  datatype Option<+T> = None | Some(value: T)
}
