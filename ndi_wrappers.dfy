/** The optional value used wherever the interpreter may have nothing to report. */
module NDIWrappers {
  datatype Option<T> = None | Some(value: T)
}
