/** Shared value types of the model. */
module Base {

  /** A Java reference or JavaScript value that may be null/undefined. */
  datatype Option<+T> = None | Some(value: T)

  /** What a call into code outside the model (an HTTP request, a repository
      operation) delivered: a value, or a rejection whose cause is not modelled. */
  datatype Outcome<+T> = Success(value: T) | Failure

  /** An instant produced by the clock; the model never inspects it. */
  type Timestamp = int
}
