/** Optional values: a JavaScript `undefined` / absent field is `None`. */
module Wrappers {

  datatype Option<+T> = None | Some(value: T)
}
