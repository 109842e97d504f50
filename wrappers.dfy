/** Optional values: JavaScript's `undefined` where a string or a match may be absent. */
module Wrappers {

  datatype Option<+T> = None | Some(value: T)
}
