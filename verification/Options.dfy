/** The usual optional value: the source's `undefined` and SQL's NULL. */
module Options {
  datatype Option<+T> = None | Some(value: T)
}
