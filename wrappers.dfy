/** Optional values: `None` stands for JavaScript's `null`/`NaN` "no result" answers. */
module Wrappers {
  datatype Option<+T> = None | Some(value: T)
}
