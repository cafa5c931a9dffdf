/** An optional value, for the source's `null`-able state cells. */
module Options {

  datatype Option<T> = None | Some(value: T)
}
