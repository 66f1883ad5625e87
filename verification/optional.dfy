/** The absent-or-present wrapper used for the reducer's nullable fields. */
module Optional {
  datatype Option<T> = None | Some(value: T)
}
