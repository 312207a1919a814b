/** The optional value used for Python's `None`-or-value globals and results. */
module Options {

  datatype Option<+T> = None | Some(value: T)
}
