/** Option and Result, and the three exceptions the converter can raise. */
module Wrappers {

  datatype Option<+T> = None | Some(value: T)

  /** A Result works with `:-`: an `Err` stops the computation, as a raised
      Python exception stops the call that raised it. */
  datatype Result<+T, +E> = Ok(value: T) | Err(error: E) {
    predicate IsFailure() {
      Err?
    }

    function PropagateFailure<U>(): Result<U, E>
      requires Err?
    {
      Err(error)
    }

    function Extract(): T
      requires Ok?
    {
      value
    }
  }

  /** The exceptions the converter lets escape. */
  datatype ConvError =
    | UnknownContainer(key: string)  // KeyError: a list under a key the table does not know
    | AppendToText(field: string)    // AttributeError: a pivot appends to a field holding a str
    | NotAChild(tag: string)         // ValueError: Element.remove of an element that is not a child
}
