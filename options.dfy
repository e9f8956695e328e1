/** An optional value: the source's `undefined`/`null` for a missing field or result. */
module Options {
  datatype Option<T> = None | Some(value: T)
}
