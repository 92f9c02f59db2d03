/** The optional value used wherever the JavaScript code returns `null`
    or leaves an array slot empty. */
module Wrappers {

  datatype Option<+T> = None | Some(value: T)
}
