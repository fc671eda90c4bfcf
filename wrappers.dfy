/** Optional values: the error a send may report, and the key a waiting requester may not have yet. */
module Wrappers {

  datatype Option<+T> = None | Some(value: T)

}
