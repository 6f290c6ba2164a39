/** Optional values: the model's stand-in for JavaScript's `undefined`/`null`
    and for the form's empty selection `''`. */
module Wrappers {

  datatype Option<+T> = None | Some(value: T)
}
