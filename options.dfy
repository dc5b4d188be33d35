/** An optional value: `undefined`/`null` in the front end becomes None. */
module Options {
  datatype Option<+T> = None | Some(value: T)
}
