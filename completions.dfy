/** How a call into the JVM ends: it returns a value or it throws. */
module Completions {

  /** A Kotlin nullable value. */
  datatype Option<+T> = None | Some(value: T) {
    /** The elvis operator `?: default`. */
    function GetOr(default: T): T {
      match this
      case Some(v) => v
      case None => default
    }
  }

  /** The exceptions the sleep path tells apart: the health platform's own
      `HealthDataException`, and every other throwable. */
  datatype Throwable =
    | HealthDataException(message: string)
    | OtherThrowable(message: string)

  /** The outcome of a call that may throw. */
  datatype Completion<+T> = Returned(value: T) | Threw(failure: Throwable)
}
