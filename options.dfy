/** The optional value used wherever the TypeScript code has `null`, `undefined` or an absent entry. */
module Options {

  datatype Option<+T> = None | Some(value: T)
}
