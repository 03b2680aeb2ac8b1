/** Optional values: a field that is absent, `null` or `undefined` in the
    JavaScript source is `None` here. */
module Wrappers {

  datatype Option<+T> = None | Some(value: T)
}
