/** The optional value shared by the server and the client model. */
module Options {
  datatype Option<+T> = None | Some(value: T)
}
