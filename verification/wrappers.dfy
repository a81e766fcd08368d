/** Optional values, used where the analysed JavaScript leaves a field `undefined` or `null`. */
module Wrappers {

  datatype Option<+T> = None | Some(value: T)
}
