/** The optional value used wherever the game returns `None` for "nothing". */
module Options {
  datatype Option<T> = None | Some(value: T)
}
