/** Failure values that stand for the Python exceptions of the pipeline.

    Every failure inside a training step is caught and re-raised as a
    `CustomException` whose text depends on live traceback state; the model
    keeps only the message of the underlying error, as a value. */
module Errors {

  datatype Option<+T> = None | Some(value: T)

  /** The exception that reached the caller, reduced to its message. */
  datatype Failure = Failure(message: string)

  datatype Result<+T> = Ok(value: T) | Err(failure: Failure) {

    predicate IsFailure() {
      Err?
    }

    function PropagateFailure<U>(): Result<U>
      requires Err?
    {
      Err(failure)
    }

    function Extract(): T
      requires Ok?
    {
      value
    }
  }
}
