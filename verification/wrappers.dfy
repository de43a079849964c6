/** Optional values: the model's stand-in for the source's optional record
    fields (`field?: T`) and nullable values (`T | null`). */
module Wrappers {

  datatype Option<+T> = None | Some(value: T)
}
