/** Optional values, standing for JavaScript's `null`/`undefined` beside a value. */
module Wrappers {

  datatype Option<+T> = None | Some(value: T)
}
