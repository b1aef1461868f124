/** Optional values: `None` stands for JavaScript's `undefined` throughout the model. */
module Wrappers {
  datatype Option<+T> = None | Some(value: T)
}
