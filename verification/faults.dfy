/** `formatError`: the worker's single failure boundary turns whatever was
    thrown into a plain fault record. */
module Faults {
  import opened Wrappers
  import opened Js

  /** The record handed to the callback on failure (`ErrorType`): a stack
      trace (None for `null`/`undefined`), a message and a category label. */
  datatype ErrorRecord = ErrorRecord(stack: Option<string>, message: string, errorType: JsValue)

  /** The category used when the thrown value carries no truthy `type`. */
  const DefaultErrorType: JsValue := Str("Error")

  /** The message a thrown value carries: the string itself, or the Error's message. */
  function MessageOf(t: Thrown): string {
    match t
    case ThrownString(text) => text
    case ThrownError(message, _, _) => message
  }

  /** `formatError`. A thrown string becomes a record with no stack, the
      string as message and the default type; an Error keeps its stack and
      message, and its `type` when that is truthy. */
  function FormatError(t: Thrown): (r: ErrorRecord)
    ensures r.message == MessageOf(t)
    ensures Truthy(r.errorType)
    ensures t.ThrownString? ==> r.stack.None? && r.errorType == DefaultErrorType
    ensures t.ThrownError? ==> r.stack == t.stack
    ensures t.ThrownError? && Truthy(t.errorType) ==> r.errorType == t.errorType
    ensures t.ThrownError? && !Truthy(t.errorType) ==> r.errorType == DefaultErrorType
  {
    match t
    case ThrownString(text) => ErrorRecord(None, text, DefaultErrorType)
    case ThrownError(message, stack, errorType) => ErrorRecord(stack, message, Or(errorType, DefaultErrorType))
  }

  /** An Error-like value carrying exactly the fields of a record. */
  function Rethrow(r: ErrorRecord): Thrown {
    ThrownError(r.message, r.stack, r.errorType)
  }

  /** Normalising is idempotent: throwing a normalised record again and
      normalising it yields the same record. */
  lemma FormatErrorIdempotent(t: Thrown)
    ensures FormatError(Rethrow(FormatError(t))) == FormatError(t)
  {
  }
}
