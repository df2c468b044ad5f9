/** Optional values. A parsed number that JavaScript reports as NaN is `None`. */
module Wrappers {
  datatype Option<+T> = None | Some(value: T)
}
