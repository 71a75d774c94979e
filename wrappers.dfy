/** The optional value and the call outcome shared by the other modules. */
module Wrappers {

  /** A value that may be absent; also stands for Python's `None`. */
  datatype Option<+T> = None | Some(value: T)

  /** Whether a call returned normally or let an exception escape. */
  datatype Outcome<+T> = Returned(value: T) | Raised
}
