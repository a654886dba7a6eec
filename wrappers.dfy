/** Optional values: `None` stands for a panic or a NaN result of the source. */
module Wrappers {

  datatype Option<T> = None | Some(value: T)
}
