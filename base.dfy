/** Shared vocabulary of the model: URIs, optional values and the
    exceptions the Python code raises, as failure-compatible results. */
module Base {

  /** A URI, or any identity key produced by `normalise_uri`. */
  type URI = string

  datatype Option<+T> = None | Some(value: T) {
    function GetOr(default: T): T {
      match this
      case Some(v) => v
      case None => default
    }
  }

  /** The Python exceptions that escape the modelled code.
      `Rejected` stands for the relationship layer refusing an object that
      is not a Concept in a relationship whose target class is Concept. */
  datatype Error = KeyError | AttributeError | Rejected

  datatype Result<+T> = Ok(value: T) | Err(error: Error) {
    predicate IsFailure() { Err? }
    function PropagateFailure<U>(): Result<U> requires Err? { Err(error) }
    function Extract(): T requires Ok? { value }
  }

  /** The outcome of a Python call that returns nothing but may raise. */
  datatype Outcome = Pass | Fail(error: Error) {
    predicate IsFailure() { Fail? }
    function PropagateFailure(): Outcome requires Fail? { this }
  }
}
