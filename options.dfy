/** The optional value used for lookups that may find nothing (a dangling id). */
module Options {

  datatype Option<+T> = None | Some(value: T)
}
