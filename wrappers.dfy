/** Optional values: PHP's `null` on the nullable results of the paginator. */
module Wrappers {

  datatype Option<+T> = None | Some(value: T)
}
