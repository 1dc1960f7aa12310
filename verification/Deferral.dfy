/** Deferred requests: what is asked of whom, what is stored, and what a poll reports. */
module Deferral {
  import opened Prelude
  import opened Tokens
  import opened Text

  /** JSON values; an object is a map from keys to values, a fraction is kept as written. */
  datatype Json = Null | Bool(b: bool) | Whole(n: int) | Fraction(text: string) | Str(s: string) | Arr(items: seq<Json>) | Obj(members: map<string, Json>)

  /** The codes that a poll's status depends on; `NamedCode` stands for every other named one. */
  datatype ErrorCode =
    | DeniedCode | AbandonedCode | AccessDeniedCode | ExpiredCode | InteractionExpiredCode | InvalidCodeCode | SlowDownCode
    | ServerErrorCode | TemporarilyUnavailableCode | NamedCode(name: string) | CustomCode(text: string)

  datatype ProtocolError = ProtocolError(code: ErrorCode, description: Option<string>)

  datatype PendingStatus = Pending | Interacting

  datatype Requirement =
    | Interaction(url: string, code: string)
    | Clarification(question: string, timeout: Option<U64>)
    | Claims(requiredClaims: seq<string>)
    | Approval
    | Payment(paymentLocation: string)

  datatype Outcome = AuthToken(body: TokenResponse) | OpaqueAccess(token: string) | Failed(error: ProtocolError)

  datatype Snapshot = Waiting(status: PendingStatus, requirement: Requirement) | Complete(outcome: Outcome)

  datatype PollOutcome = StillPending(status: PendingStatus, requirement: Requirement) | Finished(outcome: Outcome) | PollGone

  datatype ClaimsSubmission = ClaimsSubmission(sub: string, email: Option<string>, tenant: Option<string>, extra: map<string, Json>)

  datatype UpdatedToken = UpdatedToken(resourceToken: string, justification: Option<string>)

  /** What an agent posts to a pending URL. */
  datatype PendingInput =
    | ClarificationResponse(answer: string)
    | SubmittedClaims(claims: ClaimsSubmission)
    | UpdatedTokenInput(update: UpdatedToken)
    | InteractionCompleted
    | Cancelled

  function PollOf(snapshot: Snapshot): (r: PollOutcome) {
    match snapshot
    case Complete(outcome) => Finished(outcome)
    case Waiting(status, requirement) => StillPending(status, requirement)
  }

  /** The JSON body of a 202 reply. */
  datatype PendingBody =
    | StatusBody(status: PendingStatus)
    | ClarificationBody(status: PendingStatus, clarification: string, timeout: Option<U64>)
    | ClaimsBody(status: PendingStatus, requiredClaims: seq<string>)

  function BodyForWaiting(requirement: Requirement, status: PendingStatus): (r: Option<PendingBody>)
    ensures r.None? <==> requirement.Payment?
  {
    match requirement
    case Clarification(question, timeout) => Some(ClarificationBody(status, question, timeout))
    case Claims(required) => Some(ClaimsBody(status, required))
    case Interaction(_, _) => Some(StatusBody(status))
    case Approval => Some(StatusBody(status))
    case Payment(_) => None
  }

  /** Where a pending request can be polled. */
  function PendingUrl(base: string, path: string, id: string): (r: string) {
    TrimSlash(base) + "/" + TrimStartChar(path, '/') + "/" + id
  }
}
