/** The optional value used wherever the C++ code passes a pointer that may be NULL. */
module Optional {

  datatype Option<+T> = None | Some(value: T)

}
