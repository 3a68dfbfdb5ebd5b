/** Optional values: `None` stands for a missing or NaN entry of a pandas series. */
module Wrappers {

  datatype Option<+T> = None | Some(value: T)
}
