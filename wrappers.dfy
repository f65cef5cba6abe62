/** Small value wrappers shared by every module of the model. */
module Wrappers {

  /** A value that may be absent: TypeScript's `T | null` / `T | undefined`. */
  datatype Option<+T> = None | Some(value: T) {
    function GetOr(default: T): T {
      match this
      case Some(v) => v
      case None => default
    }
  }

  /** How an awaited call into code outside the model settled: the promise
      resolved with a value, or it rejected (the `catch` branch runs). */
  datatype Call<+T> = Returned(value: T) | Threw
}
