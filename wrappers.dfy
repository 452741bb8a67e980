/** Option and Result values used across the model, and the run-time faults the source can raise. */
module Wrappers {

  datatype Option<+T> = None | Some(value: T) {
    /** The value if present, otherwise `default` (Python's `d.get(key, default)`). */
    function GetOr(default: T): T {
      match this
      case Some(v) => v
      case None => default
    }
  }

  datatype Result<+T, +E> = Ok(value: T) | Err(error: E)

  /** Exceptions the modelled code can raise instead of returning. */
  datatype Fault =
    | IndexError                  // `state["messages"][-1]` on an empty history
    | UnmappedKey(key: string)    // a routing key absent from a conditional-edge map
    | InvalidMessage              // `AIMessage(content=None)` rejected by message validation
    | UnknownClass(classId: int)  // a detected class id missing from the model's label names
}
