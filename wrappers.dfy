/** Optional values, used where the script keeps a variable that may still be `undefined`. */
module Wrappers {

  datatype Option<+T> = None | Some(value: T)
}
