/** Failure-compatible result types used by every module of the model. */
module Wrappers {

  datatype Option<+T> = None | Some(value: T)

  /** The source's `Result<T, String>`. The only part of an error text that the source
      ever branches on is whether it names the executor, so that is all `Err` keeps. */
  datatype Result<+T> = Ok(value: T) | Err(executor: bool) {
    predicate IsFailure() {
      Err?
    }

    function PropagateFailure<U>(): Result<U>
      requires Err?
    {
      Err(executor)
    }

    function Extract(): T
      requires Ok?
    {
      value
    }
  }
}
