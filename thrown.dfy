/** What a JavaScript `catch` clause can receive in the core. */
module Thrown {
  import opened Wrappers
  import opened AppContext

  /**
   * ApiError is the client's Error subclass (with an optional HTTP status);
   * JsError is any other Error object (name and message); AppErrorValue is a
   * plain AppError object thrown as a value (not an Error); OtherValue is
   * anything else a promise can reject with.
   */
  datatype Thrown =
    | ApiError(apiMessage: string, statusCode: Option<int>)
    | JsError(name: string, message: string)
    | AppErrorValue(appError: AppError)
    | OtherValue

  /** `value instanceof Error`. */
  predicate IsErrorInstance(t: Thrown)
  {
    t.ApiError? || t.JsError?
  }

  /** `error.message` of an Error instance. */
  function MessageOf(t: Thrown): string
    requires IsErrorInstance(t)
  {
    if t.ApiError? then t.apiMessage else t.message
  }

  /** `error.name` of an Error instance ("ApiError" for the client's subclass). */
  function NameOf(t: Thrown): string
    requires IsErrorInstance(t)
  {
    if t.ApiError? then "ApiError" else t.name
  }

  /** The idiom `e instanceof Error ? e.message : fallback`. */
  function MessageOr(t: Thrown, fallback: string): (m: string)
    ensures IsErrorInstance(t) ==> m == MessageOf(t)
    ensures !IsErrorInstance(t) ==> m == fallback
  {
    if IsErrorInstance(t) then MessageOf(t) else fallback
  }
}
