/** The `null`-or-value shape the store and the marker component use. */
module Options {

  datatype Option<+T> = None | Some(value: T)
}
