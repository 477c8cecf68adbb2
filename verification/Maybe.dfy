/** A value or nothing. */
module Maybe {
  datatype Option<T> = None | Some(value: T)
}
