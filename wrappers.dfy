/** Optional values: the canvas component reports its image data or nothing. */
module Wrappers {

  datatype Option<+T> = None | Some(value: T)

}
