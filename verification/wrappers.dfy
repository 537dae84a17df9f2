/** Optional values: Python's None and the empty-dict results of the renderer. */
module Wrappers {
  datatype Option<+T> = None | Some(value: T)
}
