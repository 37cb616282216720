/** Option and Result shapes shared by every module, and the kinds of failure the
    implementations report. */
module Wrappers {
  datatype Option<+T> = None | Some(value: T)

  /** A failure. SyntaxError is the positioned error the lexers and parsers raise.
      StructuralError carries no position: the serializers' structural errors and the
      message strings of the C implementation. Fault is a runtime failure the source does
      not raise on purpose (a TypeError, a missing key, a panic). */
  datatype Error =
    | SyntaxError(msg: string, line: int, col: int)
    | StructuralError(msg: string)
    | Fault(msg: string)

  datatype Result<+T> = Ok(value: T) | Err(error: Error) {
    predicate IsFailure() { Err? }
    function PropagateFailure<U>(): Result<U> requires Err? { Err(error) }
    function Extract(): T requires Ok? { value }
  }
}
