/** Optional values, used where a collaborator may find nothing. */
module Wrappers {

  datatype Option<+T> = None | Some(value: T)
}
