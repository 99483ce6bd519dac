/** Optional values: a JavaScript `undefined`/`null` field becomes None. */
module Wrappers {

  datatype Option<+T> = None | Some(value: T)
}
