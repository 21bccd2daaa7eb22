/** Option and Result types shared by the whole model.

    `Result` stands for a Python call that either returns a value or raises
    one of the exceptions the modelled code can raise.
 */
module Wrappers {

  datatype Option<+T> = None | Some(value: T) {
    predicate IsFailure() { None? }

    function PropagateFailure<U>(): Option<U>
      requires None?
    {
      None
    }

    function Extract(): T
      requires Some?
    {
      value
    }

    function GetOr(default: T): T {
      match this
      case Some(v) => v
      case None => default
    }
  }

  /** The Python exceptions the modelled code can raise. */
  datatype Error =
    | IndexError        // list or string index out of range
    | ValueError        // list.index / str.index found nothing
    | KeyError          // missing dictionary key
    | UnboundLocal      // a loop that was meant to bind a variable never ran
    | AssertionFailed   // an `assert` statement failed
    | AttributeError    // an attribute was read that the object lacks
    | TypeError         // an operation was applied to a value of the wrong type
    | RecursionError    // the interpreter ran out of stack frames

  datatype Result<+R> = Ok(value: R) | Err(error: Error) {
    predicate IsFailure() { Err? }

    function PropagateFailure<U>(): Result<U>
      requires Err?
    {
      Err(error)
    }

    function Extract(): R
      requires Ok?
    {
      value
    }

    function GetOr(default: R): R {
      match this
      case Ok(v) => v
      case Err(_) => default
    }
  }
}
