/** The fatal conditions of the traversal step and a failure-compatible result type. */
module Failures {
  import opened Graph

  /** Every exception the step raises aborts the pass. */
  datatype TraverseError =
    | IllegalDirection(direction: Direction)  // a pattern direction other than IN or OUT
    | IllegalTag(tag: char)                   // a shuffled holder whose tag is not 'v', 'i' or 'o'
    | NotAnEdge(tag: char)                    // an 'i' or 'o' holder whose element is not an edge

  datatype Result<+T> = Success(value: T) | Failure(error: TraverseError)
  {
    predicate IsFailure() {
      Failure?
    }

    function PropagateFailure<U>(): Result<U>
      requires Failure?
    {
      Failure(error)
    }

    function Extract(): T
      requires Success?
    {
      value
    }
  }
}
