/** The platform error codes the handlers look for in an exception's text, and
    the 400/500 classification built on them. */
module ErrorCodes {
  import opened Common
  import opened PyStrings

  const CallRecordingActiveErrorCode := "8553"
  const CallRecordingNotFoundErrorCode := "8522"
  const InvalidJoinIdentityErrorCode := "8527"
  const CallNotEstablishedErrorCode := "8501"

  /** A start failure is the caller's fault: a recording is already active, the
      join identity is invalid, or the call is not established. */
  predicate IsStartClientError(message: string) {
    Contains(message, CallRecordingActiveErrorCode) ||
    Contains(message, InvalidJoinIdentityErrorCode) ||
    Contains(message, CallNotEstablishedErrorCode)
  }

  /** A pause, resume, stop or state failure is the caller's fault when the
      recording was not found. */
  predicate IsNotFoundError(message: string) {
    Contains(message, CallRecordingNotFoundErrorCode)
  }

  /** The response of the start handler's except clause. */
  function StartFailure(message: string): Response {
    Response(message, if IsStartClientError(message) then BadRequest else ServerError)
  }

  /** The response of the except clause of the other lifecycle handlers. */
  function ControlFailure(message: string): Response {
    Response(message, if IsNotFoundError(message) then BadRequest else ServerError)
  }

  /** A text without the digit 8 is classified as a server error by both. */
  lemma NoErrorCode(message: string)
    requires '8' !in message
    ensures !IsStartClientError(message) && !IsNotFoundError(message)
  {
    AbsentFirstChar(message, CallRecordingActiveErrorCode);
    AbsentFirstChar(message, InvalidJoinIdentityErrorCode);
    AbsentFirstChar(message, CallNotEstablishedErrorCode);
    AbsentFirstChar(message, CallRecordingNotFoundErrorCode);
  }
}
