/** The optional value used for "no last stream" and for thrown errors. */
module Wrappers {

  datatype Option<+T> = None | Some(value: T)

}
