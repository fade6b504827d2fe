/** The usual optional value, used for fields that may be unset. */
module Options {
  datatype Option<+T> = None | Some(value: T)
}
