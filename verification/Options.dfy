/** A value that may be absent: a nullable column, a missing key or an unreadable attachment. */
module Options {
  datatype Option<T> = None | Some(value: T)
}
