/** Optional values, for the places where the component reads something that may be absent. */
module Wrappers {

  datatype Option<+T> = None | Some(value: T)
}
