/** The optional value used wherever a step of the sale can fail. */
module Options {
  datatype Option<+T> = None | Some(value: T)
}
