/** The absent value of the source's `X | None` results. */
module Options {
  datatype Option<+T> = None | Some(value: T)
}
