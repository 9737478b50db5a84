/** Optional values: the TypeScript program's `undefined` / `null` results and failed calls. */
module Wrappers {
  datatype Option<+T> = None | Some(value: T)
}
