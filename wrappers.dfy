/** The optional value used wherever the source may find nothing (a file it
    cannot open, a missing separator, a conversion that throws). */
module Wrappers {

  datatype Option<+T> = None | Some(value: T)
}
