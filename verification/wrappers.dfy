/** The failure-carrying datatypes of the model. `Option` works with `:-`
    (the UTF-8 decoder uses it); `Result` stands for a Rust `Result<T, E>`
    and `Outcome` for a `Result<(), E>`, both matched on explicitly. */
module Wrappers {

  datatype Option<+T> = None | Some(value: T) {

    predicate IsFailure() {
      None?
    }

    function PropagateFailure<U>(): Option<U>
      requires None?
    {
      None
    }

    function Extract(): T
      requires Some?
    {
      value
    }
  }

  datatype Result<+R, +E> = Success(value: R) | Failure(error: E)

  /** The result of a step that returns nothing on success. */
  datatype Outcome<+E> = Pass | Fail(error: E)
}
