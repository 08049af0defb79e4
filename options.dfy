/** An optional value: the Swift optionals of the scene (`last`, `escapeHeight`)
    and the absent result of a query on an empty record store. */
module Options {
  datatype Option<T> = None | Some(value: T)
}
