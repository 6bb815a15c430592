/** The JSON response envelope and the five constructors that build it (main.go, `response`
    and the `getResponse*` functions). Every reply goes out with transport status 200; the
    code that means something travels in the body's `status` field. */
module Responses {

  // The net/http status codes the gateway uses.
  const StatusOK: int := 200
  const StatusUnauthorized: int := 401
  const StatusInternalServerError: int := 500
  const StatusNotImplemented: int := 501

  /** The JSON object `{"status": ..., "message": ...}`. */
  datatype Envelope = Envelope(status: int, message: string)

  /** What one call of `c.JSON(code, body)` hands to the transport. */
  datatype Reply = Reply(transportStatus: int, body: Envelope)

  /** The body codes the gateway can report. */
  predicate IsBodyStatus(status: int) {
    status in {StatusOK, StatusUnauthorized, StatusInternalServerError, StatusNotImplemented}
  }

  /** The invariant every reply of the gateway satisfies. */
  predicate WellFormed(r: Reply) {
    r.transportStatus == StatusOK && IsBodyStatus(r.body.status)
  }

  /** True of the replies that report a failure rather than command output. */
  predicate IsFailure(r: Reply) {
    r.body.status != StatusOK
  }

  /** `c.JSON(http.StatusOK, body)`: the transport status is pinned to 200. */
  function Json(body: Envelope): Reply {
    Reply(StatusOK, body)
  }

  /** getResponseNotImplement: a reserved mode that has no implementation. */
  function NotImplement(): (r: Reply)
    ensures WellFormed(r) && IsFailure(r)
    ensures r.body.status == StatusNotImplemented && r.body.message == "Not Implement"
  {
    Json(Envelope(StatusNotImplemented, "Not Implement"))
  }

  /** getResponseNotAuthorize: the shared secret did not match. */
  function NotAuthorize(): (r: Reply)
    ensures WellFormed(r) && IsFailure(r)
    ensures r.body.status == StatusUnauthorized && r.body.message == "Not Authorize"
  {
    Json(Envelope(StatusUnauthorized, "Not Authorize"))
  }

  /** getResponseSuccess: the command's output, reported verbatim. */
  function Success(message: string): (r: Reply)
    ensures WellFormed(r) && !IsFailure(r)
    ensures r.body.message == message
  {
    Json(Envelope(StatusOK, message))
  }

  /** getResponseSshFailed: the remote host could not be reached or gave no session. */
  function SshFailed(): (r: Reply)
    ensures WellFormed(r) && IsFailure(r)
    ensures r.body.status == StatusInternalServerError && r.body.message == "Failed to remote server"
  {
    Json(Envelope(StatusInternalServerError, "Failed to remote server"))
  }

  /** getResponseFailedExecute: the remote command reported an error. */
  function FailedExecute(): (r: Reply)
    ensures WellFormed(r) && IsFailure(r)
    ensures r.body.status == StatusInternalServerError && r.body.message == "Failed execute command"
  {
    Json(Envelope(StatusInternalServerError, "Failed execute command"))
  }

  /** The four fixed failure envelopes are pairwise distinct, and no success reply equals any
      of them: a caller can tell every failure apart from the body alone. */
  lemma FailureRepliesDistinct(message: string)
    ensures NotImplement() != NotAuthorize() && NotImplement() != SshFailed()
    ensures NotImplement() != FailedExecute() && NotAuthorize() != SshFailed()
    ensures NotAuthorize() != FailedExecute() && SshFailed() != FailedExecute()
    ensures Success(message) !in {NotImplement(), NotAuthorize(), SshFailed(), FailedExecute()}
  {
  }
}
