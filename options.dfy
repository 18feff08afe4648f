/** The optional value used for the source's `null` / `undefined` / NaN cases. */
module Options {

  datatype Option<+T> = None | Some(value: T)
}
