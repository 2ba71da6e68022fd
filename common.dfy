/** A value that may be absent: JavaScript's `null`/`undefined` made explicit. */
module Common {
  datatype Option<T> = None | Some(value: T)
}
