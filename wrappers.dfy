/** An optional value: a JavaScript value that may be `undefined` or `null`,
    a form field's error message, a request that may not be sent. */
module Wrappers {
  datatype Option<T> = None | Some(value: T)
}
