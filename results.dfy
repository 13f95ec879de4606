/** Option and Result, the two wrappers the Rust source uses for "maybe a value"
    and "a value or an error". Result is failure-compatible, so `:-` plays the
    part of Rust's `?` operator. */
module Results {

  datatype Option<T> = None | Some(value: T) {
    function GetOr(default: T): T {
      if Some? then value else default
    }
  }

  datatype Result<T, E> = Ok(value: T) | Err(error: E) {
    predicate IsFailure() {
      Err?
    }

    function PropagateFailure<U>(): Result<U, E>
      requires Err?
    {
      Err(error)
    }

    function Extract(): T
      requires Ok?
    {
      value
    }
  }
}
