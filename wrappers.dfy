/** Optional values: a document that may be missing, a number that may be NaN. */
module Wrappers {

  datatype Option<+T> = None | Some(value: T)
}
