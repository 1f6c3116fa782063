/** Optional values and failure outcomes shared by every module. */
module Wrappers {
  /** A Java reference that may be null, or a lookup that may miss. */
  datatype Option<T> = None | Some(value: T)

  /** The exceptions the modelled code lets escape; IO is the checked IOException, StackOverflow an Error. */
  datatype Failure =
    | StringIndexOutOfBounds
    | NumberFormat
    | IllegalArgument(what: string)
    | IllegalState(what: string)
    | ClassCast
    | NullPointer
    | IO(what: string)
    | StackOverflow

  /** The result of a Java call that either returns a value or throws. */
  datatype Outcome<T> = Ok(value: T) | Thrown(failure: Failure)
}
