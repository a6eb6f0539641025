/**
 * Outcomes shared by every part of the interpreter model.
 *
 * The interpreter signals failure by raising Python exceptions.  The model
 * returns them instead: a `Result` is either the value a call returns or the
 * exception it raises, classified by the exception's kind.
 */
module Errors {

  datatype Option<+T> = None | Some(value: T)

  /** The exceptions that the modelled code raises, by kind. */
  datatype Error =
    | SyntaxError(msg: string)   // raised by the reader
    | SchemeError(msg: string)   // exception.SchemeError, the interpreter's own error
    | TypeError(msg: string)     // a host TypeError (wrong call, unhashable key, ...)
    | IndexError                 // indexing an empty Python list
    | ValueError                 // unpacking a form with the wrong number of elements
    | AttributeError             // an attribute looked up on None or on an exception object
    | NameError(name: string)    // a name that no environment frame binds
    | RecursionError             // the host recursion limit was reached

  datatype Result<+T> = Ok(value: T) | Err(error: Error) {

    predicate IsFailure() {
      Err?
    }

    function PropagateFailure<U>(): Result<U>
      requires Err?
    {
      Err(error)
    }

    function Extract(): T
      requires Ok?
    {
      value
    }
  }
}
