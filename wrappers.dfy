/** Optional values: a field or argument that TypeScript declares with `?`. */
module Wrappers {

  datatype Option<+T> = None | Some(value: T)
}
