/** A value that may be missing: JavaScript's `undefined` for an optional
    field or parameter, or `null` for an empty slot. */
module Options {
  datatype Option<T> = None | Some(value: T)
}
