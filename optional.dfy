/** An optional value, standing in for a C pointer that may be NULL. */
module Optional {
  datatype Option<T> = None | Some(value: T)
}
