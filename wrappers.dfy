/** Option and Outcome, the two failure-aware wrappers the model uses. */
module Wrappers {

  datatype Option<+T> = None | Some(value: T)

  /** The outcome of a JavaScript statement sequence that may throw: `Fail` carries the message. */
  datatype Outcome = Pass | Fail(error: string)
}
