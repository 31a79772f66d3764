/** Optional values: an absent measurement, an unset layout record, a JavaScript `null`. */
module Wrappers {

  datatype Option<+T> = None | Some(value: T)
}
