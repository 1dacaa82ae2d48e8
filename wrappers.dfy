/** Optional values: the outcome of a JavaScript number parse (None stands for NaN). */
module Wrappers {

  datatype Option<+T> = None | Some(value: T)
}
