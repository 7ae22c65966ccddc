/** Small value wrappers shared by the other modules. */
module Wrappers {

  /** A JavaScript value that may be `null`: `None` stands for `null`. */
  datatype Option<+T> = None | Some(value: T)

  /** The outcome of evaluating a JavaScript expression that may throw. */
  datatype Outcome<+T> = Returned(value: T) | Threw
}
