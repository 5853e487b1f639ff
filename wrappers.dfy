/** Absent-or-present values and results with an error, shared by the other modules.
    `None` stands for JavaScript's `undefined` (a missing property). */
module Wrappers {

  datatype Option<+T> = None | Some(value: T) {

    /** The value, or `default` when absent: JavaScript's destructuring default `{ x = d }`. */
    function GetOr(default: T): T {
      match this
      case Some(v) => v
      case None => default
    }
  }

  datatype Result<+R, +E> = Success(value: R) | Failure(error: E)
}
