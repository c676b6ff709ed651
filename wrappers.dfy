/** Optional values, used for a list cursor's selection and a generator that may not accept. */
module Wrappers {
  datatype Option<+T> = None | Some(value: T)
}
