/** Failure-carrying results shared by every module of the model. A Java
    exception that ends a call is an `Err` carrying the exception's kind. */
module Wrappers {

  datatype Option<+T> = None | Some(value: T)

  /** The kinds of exception the modelled code can end with. */
  datatype Error =
    | IllegalArgument     // java.lang.IllegalArgumentException
    | IllegalState        // java.lang.IllegalStateException
    | NullPointer         // java.lang.NullPointerException
    | Arithmetic          // java.lang.ArithmeticException (division by zero, Math.toIntExact)
    | IndexOutOfBounds    // java.lang.ArrayIndexOutOfBoundsException
    | NegativeArraySize   // java.lang.NegativeArraySizeException
    | LibraryShape        // ND4J rejects the shapes it was given (reshape, gemm, elementwise ops)

  datatype Result<+T> = Ok(value: T) | Err(error: Error) {
    predicate IsFailure() { Err? }
    function PropagateFailure<U>(): Result<U> requires Err? { Err(error) }
    function Extract(): T requires Ok? { value }
  }

  /** The result of a `void` method that may throw. */
  datatype Outcome = Pass | Fail(error: Error)
}
