/** The optional result of the phase classifier: `None` stands for Python's
    implicit `None` when no branch of the if/elif chain is taken. */
module Wrappers {

  datatype Option<+T> = None | Some(value: T)

}
