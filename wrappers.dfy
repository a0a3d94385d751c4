/** Option for an already-parsed value, Outcome for an operation that either
    goes through or is refused with an error. */
module Wrappers {

  datatype Option<+T> = None | Some(value: T)

  datatype Outcome<+E> = Pass | Fail(error: E)
}
