/** The usual optional value, for results the page's script signals with `null`. */
module Options {
  datatype Option<+T> = None | Some(value: T)
}
