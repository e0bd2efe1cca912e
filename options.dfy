/** The optional value used wherever the modelled store may hold nothing yet. */
module Options {

  datatype Option<+T> = None | Some(value: T)
}
