/** Optional values: a JavaScript property that may be `undefined`, or a call that may fail. */
module Wrappers {

  datatype Option<+T> = None | Some(value: T)
}
