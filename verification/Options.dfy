/** The optional values shared by every module of this project. */
module Options {
  datatype Option<+T> = None | Some(value: T)
}
