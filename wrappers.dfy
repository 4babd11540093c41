/** Optional values, standing in for the TypeScript `T | null` and `T | undefined`. */
module Wrappers {

  datatype Option<+T> = None | Some(value: T)
}
