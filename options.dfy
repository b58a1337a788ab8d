/** The optional value used wherever the host client may hand back null. */
module Options {
  datatype Option<+T> = None | Some(value: T)
}
