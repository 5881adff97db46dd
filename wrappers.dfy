/** Optional values: JavaScript's `undefined`/`null` for a variable that may not be set. */
module Wrappers {

  datatype Option<+T> = None | Some(value: T)
}
