/** The optional-value datatype shared by every module of the model. */
module Wrappers {

  /** `None` plays the part of JavaScript's `undefined` / `null` where a value may be missing. */
  datatype Option<+T> = None | Some(value: T) {

    /** `None` is the failure case for the `:-` operator. */
    predicate IsFailure() {
      None?
    }

    /** Carries a `None` over to an option of another value type. */
    function PropagateFailure<U>(): Option<U>
      requires None?
    {
      None
    }

    /** The wrapped value of a `Some`. */
    function Extract(): T
      requires Some?
    {
      value
    }

    /** Returns the wrapped value, or `default` when there is none. */
    function GetOr(default: T): T {
      match this
      case Some(v) => v
      case None => default
    }
  }
}
