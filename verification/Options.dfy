// The one option type the modules share.
module Options {
  datatype Option<+T> = None | Some(value: T)
}
