/** Failure-compatible wrappers used throughout the model: `Result` mirrors Rust's
    `Result<T, E>` (and so Boa's `JsResult<T>`), `Option` mirrors Rust's `Option<T>`.
    Only `Result` is failure-compatible: it works with Dafny's `:-` operator, which plays
    the part of Rust's `?`. `Option` is a plain value here. */
module Results {

  /** Rust's `Option<T>`. */
  datatype Option<+T> = None | Some(value: T)

  /** Rust's `Result<T, E>`; `Err` carries the propagated failure. */
  datatype Result<+T, +E> = Ok(value: T) | Err(error: E) {

    predicate IsFailure() {
      Err?
    }

    function PropagateFailure<U>(): Result<U, E>
      requires Err?
    {
      Err(error)
    }

    function Extract(): T
      requires Ok?
    {
      value
    }
  }
}
