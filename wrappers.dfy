/** Optional values, for Go's `(value, error)` returns whose error carries no information the model needs. */
module Wrappers {

  datatype Option<+T> = None | Some(value: T)
}
