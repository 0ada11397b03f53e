/** The Python exceptions the risk scorer can raise, and a failure-compatible
    result type so that `:-` propagates them the way an uncaught exception
    leaves `calculate_ergonomic_risk`. */
module Errors {

  datatype PyError =
    | KeyError(key: string)   // `pose_landmarks[key]` on an absent key
    | ZeroDivisionError       // `dot_product / 0.0` for a zero-length vector
    | EmptyMinError           // `min([])`: ValueError, "min() arg is an empty sequence"

  datatype Result<+T> = Ok(value: T) | Err(error: PyError) {

    predicate IsFailure() {
      Err?
    }

    function PropagateFailure<U>(): (r: Result<U>)
      requires Err?
      ensures r.Err? && r.error == error
    {
      Err(error)
    }

    function Extract(): T
      requires Ok?
    {
      value
    }
  }
}
