/** Outcome datatypes shared by the whole model.

    The source is asynchronous JavaScript: a call either resolves with a value
    or rejects with an error whose `message` the callers forward.  These
    datatypes give those two shapes names so that every external call of the
    system becomes an input value of the model. */
module Outcomes {

  /** A value that may be absent (`null`/`undefined` in the source). */
  datatype Option<+T> = None | Some(value: T) {
    function GetOr(default: T): T {
      match this
      case Some(v) => v
      case None => default
    }
  }

  /** Result of one of the system's own functions: a value, or the message of
      the error it throws. */
  datatype Result<+T> = Ok(value: T) | Err(message: string)

  /** What an external provider call did: resolved with a value, or rejected
      with an error message.  The model never looks inside the provider. */
  datatype Reply<+T> = Answered(value: T) | Rejected(message: string) {
    function GetOr(default: T): T {
      match this
      case Answered(v) => v
      case Rejected(_) => default
    }
  }

  /** Outcome of an external call that returns nothing useful (a database
      write, a file deletion). */
  datatype Outcome = Done | Failed(message: string)
}
