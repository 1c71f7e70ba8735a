/** Optional values, for absent objects, absent keys and reads that fail. */
module Wrappers {

  datatype Option<+T> = None | Some(value: T)
}
