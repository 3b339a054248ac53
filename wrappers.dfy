/** Small failure-carrying datatypes shared by the other modules. */
module Wrappers {

  /** A value that may be absent (`null` in the system). */
  datatype Option<+T> = None | Some(value: T)

  /** The outcome of a call into an external collaborator that may throw. */
  datatype Outcome<+T> = Threw | Returned(value: T)
}
