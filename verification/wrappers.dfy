/** Optional values: the result of `products.find`, which is `undefined` when no line matches. */
module Wrappers {

  datatype Option<+T> = None | Some(value: T)
}
