/** Optional values: an absent header, an unset environment variable, a failed decode. */
module Wrappers {

  datatype Option<+T> = None | Some(value: T)
}
