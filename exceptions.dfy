/**
 * The error taxonomy of the client: `HunterAPIError` and its two
 * subclasses, all carrying a message and an HTTP status code.
 */
module Exceptions {

  /** The three exception classes; the last two derive from the first. */
  datatype ErrorClass = HunterApiError | HunterAuthError | HunterRateLimitError

  /** A raised API error: its class, its message and its status code. */
  datatype HunterError = HunterError(errorClass: ErrorClass, message: string, statusCode: int)

  /** Python's `str(error)`: the message given to the constructor. */
  function Str(e: HunterError): string {
    e.message
  }

  /** Python's `isinstance(e, cls)` over the three-class hierarchy. */
  predicate IsInstance(e: HunterError, cls: ErrorClass) {
    cls == HunterApiError || cls == e.errorClass
  }

  /**
   * Constructs an error of class `cls`; `statusCode` defaults to 0. The
   * message is kept verbatim as the error's string form, and every error is
   * an instance of both its own class and `HunterAPIError`.
   */
  function NewError(cls: ErrorClass, message: string, statusCode: int := 0): (e: HunterError)
    ensures Str(e) == message && e.message == message
    ensures e.statusCode == statusCode
    ensures IsInstance(e, cls) && IsInstance(e, HunterApiError)
    ensures forall c :: IsInstance(e, c) <==> c == HunterApiError || c == cls
  {
    HunterError(cls, message, statusCode)
  }
}
