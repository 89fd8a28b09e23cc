/** Optional values: a null pointer returned by the engine becomes None. */
module Wrappers {

  datatype Option<+T> = None | Some(value: T)

}
