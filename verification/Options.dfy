/** Results that may be missing: a failed check yields an error, a passed one yields none. */
module Options {
  datatype Option<+T> = None | Some(value: T)
}
