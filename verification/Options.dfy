/** A value that may be absent: a nullable column or an optional field of a request. */
module Options {
  datatype Option<+T> = None | Some(value: T)
}
