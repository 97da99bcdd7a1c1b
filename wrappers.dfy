/** Option and Result values, and the Python exceptions the engine can raise. */
module Wrappers {

  datatype Option<+T> = None | Some(value: T) {
    function GetOr(default: T): T {
      match this
      case Some(v) => v
      case None => default
    }
  }

  /** The exceptions that the simulation code raises or lets escape. */
  datatype Error =
    | ValueError(name: string)   // unknown intervention name
    | KeyError(key: string)      // organ scenario missing from organ_scenarios
    | ZeroDivisionError          // years / dt with dt == 0
    | IndexError                 // ages_arr[-1] on an empty history

  datatype Result<+R> = Ok(value: R) | Err(error: Error) {
    predicate IsFailure() {
      Err?
    }

    function PropagateFailure<U>(): Result<U>
      requires Err?
    {
      Err(error)
    }

    function Extract(): R
      requires Ok?
    {
      value
    }
  }
}
