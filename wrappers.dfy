/** Optional values: `None` stands for JavaScript's `undefined` (or a missing form value). */
module Wrappers {

  datatype Option<+T> = None | Some(value: T)
}
