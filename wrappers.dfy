/** An optional value, used both for Python's `None` results and for
    operations that raise (a missing key, a failed assert). */
module Wrappers {

  datatype Option<+T> = None | Some(value: T) {

    predicate IsFailure() {
      None?
    }

    function PropagateFailure<U>(): Option<U>
      requires None?
    {
      None
    }

    function Extract(): T
      requires Some?
    {
      value
    }

    /** The value, or `default` if there is none. */
    function GetOr(default: T): T {
      match this
      case None => default
      case Some(v) => v
    }

    /** Applies `f` to the value, if there is one. */
    function Bind<U>(f: T -> Option<U>): Option<U> {
      match this
      case None => None
      case Some(v) => f(v)
    }
  }
}
