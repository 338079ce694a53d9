/** Failure-compatible result type used for every operation that throws in Java. */
module Wrappers {

  /** The Java exceptions the modelled code can raise. */
  datatype Failure =
    | EndOfData          // EOFException from a fixed-width read past the end of the stream
    | IndexOutOfBounds   // ArrayIndexOutOfBoundsException
    | NegativeArraySize  // NegativeArraySizeException
    | NullPointer        // NullPointerException
    | ClassCast          // ClassCastException
    | IllegalArgument    // IllegalArgumentException (e.g. Enum.valueOf of an unknown name)

  datatype Option<+T> = None | Some(value: T)

  datatype Result<+T> = Ok(value: T) | Err(error: Failure) {
    predicate IsFailure() { Err? }

    function PropagateFailure<U>(): Result<U>
      requires Err?
    {
      Err(error)
    }

    function Extract(): T
      requires Ok?
    {
      value
    }
  }
}
