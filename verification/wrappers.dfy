/** Optional values: the model's reading of JavaScript `undefined`/`null` fields. */
module Wrappers {

  datatype Option<+T> = None | Some(value: T)
}
