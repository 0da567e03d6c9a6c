/** The optional value shared by the modules of this project: Python's `None`
    and JavaScript's `undefined` become `None`. */
module Wrappers {

  datatype Option<+T> = None | Some(value: T)
}
