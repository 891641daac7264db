/** Optional values: `None` stands for JavaScript's null/undefined. */
module Wrappers {

  datatype Option<T> = None | Some(value: T)
}
