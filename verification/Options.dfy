/** Optional results. `None` stands for every error value the checked arithmetic and the
    actions can return, so `:-` plays the part of Rust's `?`. */
module Options {
  datatype Option<+T> = None | Some(value: T) {
    predicate IsFailure() {
      None?
    }

    function PropagateFailure<U>(): Option<U>
      requires None?
    {
      None
    }

    function Extract(): T
      requires Some?
    {
      value
    }
  }

  /** Succeeds exactly when the condition holds; used for validations. */
  function Ensure(condition: bool): Option<()> {
    if condition then Some(()) else None
  }
}
