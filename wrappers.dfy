/** Optional values, used for Python's `None` results and for parse failures. */
module Wrappers {

  datatype Option<+T> = None | Some(value: T)
}
