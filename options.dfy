/** A value that may be absent: the source's nullable results and
    accumulators. */
module Options {
  datatype Option<T> = None | Some(value: T)
}
