/** Optional values: a TypeScript field declared with `?` is either absent or present. */
module Wrappers {

  datatype Option<+T> = None | Some(value: T)
}
