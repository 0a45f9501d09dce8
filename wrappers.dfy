/** Optional values: a JavaScript `null` owner or a missing move. */
module Wrappers {

  datatype Option<+T> = None | Some(value: T)

}
