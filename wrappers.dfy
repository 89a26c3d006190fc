/** Optional values. A pop on an empty Redis list gives back redis-py's None. */
module Wrappers {

  datatype Option<T> = None | Some(value: T)
}
