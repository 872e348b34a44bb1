/** Failure-compatible datatypes shared by every coercion in the model.

    The library reports failures by raising Python exceptions; the model
    returns them as values. Three exception classes are observable:
    - TypeError, raised when a vector property is DECLARED with a bad length;
    - ValueError, raised for a wrong shape, nesting or keyword on assignment;
    - ZeroDivisionError, raised when a zero vector is rescaled to a length.
 */
module Outcomes {

  datatype ErrorKind = TypeError | ValueError | ZeroDivisionError

  datatype Option<+T> = None | Some(value: T)

  /** Either a coerced value or the class of exception the library raises. */
  datatype Result<+T> = Ok(value: T) | Err(kind: ErrorKind) {

    predicate IsFailure() {
      Err?
    }

    function PropagateFailure<U>(): Result<U>
      requires Err?
    {
      Err(kind)
    }

    function Extract(): T
      requires Ok?
    {
      value
    }
  }
}
