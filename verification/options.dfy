/** A JavaScript value that is either present or `null`/`undefined`. */
module Options {
  datatype Option<+T> = None | Some(value: T)
}
