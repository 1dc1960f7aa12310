/**
 The Person Server's client of an Access Server, talking to the one of this repository:
 what it makes of each answer, printed as that server prints it, and what a relayed input
 therefore comes to.
 */
module AccessClient {
  import opened Prelude
  import opened Tokens
  import opened Deferral
  import opened DeferredWire
  import opened PendingStore
  import AccessServer
  import PersonServer
  import opened Text

  // ----- error codes as text -----

  function CodeText(code: ErrorCode): (r: string) {
    match code
    case DeniedCode => "denied"
    case AbandonedCode => "abandoned"
    case AccessDeniedCode => "access_denied"
    case ExpiredCode => "expired"
    case InteractionExpiredCode => "interaction_expired"
    case InvalidCodeCode => "invalid_code"
    case SlowDownCode => "slow_down"
    case ServerErrorCode => "server_error"
    case TemporarilyUnavailableCode => "temporarily_unavailable"
    case NamedCode(name) => name
    case CustomCode(text) => text
  }

  const OTHER_NAMES := {
    "invalid_request", "invalid_agent_token", "expired_agent_token", "invalid_resource_token", "expired_resource_token",
    "user_unreachable", "invalid_signature", "invalid_scope", "invalid_input", "invalid_key", "unknown_key", "invalid_jwt",
    "expired_jwt", "user_abandoned", "interaction_unavailable", "mission_terminated"
  }

  function CodeFromText(text: string): (r: ErrorCode) {
    if text == "denied" then DeniedCode
    else if text == "abandoned" then AbandonedCode
    else if text == "access_denied" then AccessDeniedCode
    else if text == "expired" then ExpiredCode
    else if text == "interaction_expired" then InteractionExpiredCode
    else if text == "invalid_code" then InvalidCodeCode
    else if text == "slow_down" then SlowDownCode
    else if text == "server_error" then ServerErrorCode
    else if text == "temporarily_unavailable" then TemporarilyUnavailableCode
    else if text in OTHER_NAMES then NamedCode(text)
    else CustomCode(text)
  }

  /** An error as the receiver of its JSON body understands it. */
  function ReadBack(error: ProtocolError): (r: ProtocolError) {
    error.(code := CodeFromText(CodeText(error.code)))
  }

  /** The error is sent as one of these texts; other named codes have texts of their own. */
  predicate Says(error: ProtocolError, texts: set<string>) {
    !error.code.NamedCode? && CodeText(error.code) in texts
  }

  const POLLING_CODES := {
    "denied", "abandoned", "access_denied", "expired", "interaction_expired", "invalid_code", "slow_down",
    "server_error", "temporarily_unavailable"
  }

  /** The status of a failed poll goes by the text of the error, however the error was made. */
  lemma PollingStatusExactly(error: ProtocolError)
    ensures var status := PollingStatus(error);
            && (status == 408 <==> Says(error, {"expired", "interaction_expired"}))
            && (status == 410 <==> Says(error, {"invalid_code"}))
            && (status == 429 <==> Says(error, {"slow_down"}))
            && (status == 500 <==> Says(error, {"server_error", "temporarily_unavailable"}))
            && status in {403, 408, 410, 429, 500}
  {
  }

  /** The receiver reads the same text, and the same error unless a custom code borrows the text of another. */
  lemma ReadBackExactly(error: ProtocolError)
    requires error.code.NamedCode? ==> error.code.name in OTHER_NAMES
    ensures CodeText(ReadBack(error).code) == CodeText(error.code) && ReadBack(error).description == error.description
    ensures ReadBack(error) == error
            <==> !(error.code.CustomCode? && (error.code.text in OTHER_NAMES || error.code.text in POLLING_CODES))
  {
    if error.code.NamedCode? {
      OtherNames(error.code.name);
    }
  }

  lemma OtherNames(name: string)
    requires name in OTHER_NAMES
    ensures name !in POLLING_CODES
  {
    forall a, b | a in OTHER_NAMES && b in POLLING_CODES ensures a != b {
      assert |a| != |b| || a[0] != b[0] || a[2] != b[2];
    }
  }

  // ----- answers of the Access Server; None is an error for the client -----

  /** To a token exchange. */
  function ExchangeAnswer(reply: Option<AccessServer.Reply>, join: string -> string): (r: Option<PersonServer.AsExchange>) {
    match reply
    case None => None
    case Some(Granted(body)) => Some(PersonServer.AsComplete(body))
    case Some(Denied(_)) => None
    case Some(Gone) => None
    case Some(Deferred(location, requirement)) =>
      match PrintCreated(location, requirement)
      case Panicked => None
      case Printed(status, fields, body) =>
        match ParseDeferred(status, fields, Some(body), join)
        case Err(_) => None
        case Ok(parsed) => Some(PersonServer.AsDeferred(parsed.requirement, parsed.location))
  }

  /** To an input posted on; a reply without a token is followed by a poll. */
  function PostAnswer(reply: Option<AccessServer.Reply>): (r: Option<Option<TokenResponse>>) {
    match reply
    case None => None
    case Some(Granted(body)) => Some(Some(body))
    case Some(Denied(_)) => Some(None)
    case Some(Gone) => Some(None)
    case Some(Deferred(location, requirement)) =>
      var printed := PrintCreated(location, requirement);
      if printed.Printed? && printed.status == 202 then Some(None) else None
  }

  /** To a poll. */
  function PollAnswer(outcome: PollOutcome, join: string -> string): (r: Option<PersonServer.AsPoll>) {
    match outcome
    case Finished(AuthToken(body)) => Some(PersonServer.AsToken(body))
    case Finished(OpaqueAccess(_)) => None
    case Finished(Failed(error)) =>
      if PollingStatus(error) == 403 then Some(PersonServer.AsError(ReadBack(error)))
      else if PollingStatus(error) == 410 then Some(PersonServer.AsGone)
      else None
    case PollGone => Some(PersonServer.AsGone)
    case StillPending(status, requirement) =>
      match PrintWaiting(status, requirement)
      case Panicked => None
      case Printed(code, fields, body) =>
        match ParseDeferred(code, fields, Some(body), join)
        case Err(_) => None
        case Ok(parsed) => Some(PersonServer.AsWaiting(parsed.requirement, parsed.location))
  }

  /** A deferral at an absolute location reaches the client unchanged exactly when the headers can carry it. */
  lemma ExchangeAnswerExactly(location: string, requirement: Requirement, join: string -> string)
    requires Absolute(location)
    ensures ExchangeAnswer(Some(AccessServer.Deferred(location, requirement)), join) == Some(PersonServer.AsDeferred(requirement, location))
            <==> Readable(location) && CarriableRequirement(requirement)
  {
    DeferralRoundTrip(location, requirement, join);
  }

  /** A poll of this server is never answered with a deferral the client understands. */
  lemma NeverWaiting(outcome: PollOutcome, join: string -> string)
    ensures PollAnswer(outcome, join).Some? ==> !PollAnswer(outcome, join).value.AsWaiting?
    ensures outcome.StillPending? ==> PollAnswer(outcome, join).None?
  {
    if outcome.StillPending? {
      WaitingIsRejected(outcome.status, outcome.requirement, join);
    }
  }

  // ----- an input relayed to the Access Server -----

  /** The Access Server's side of a relay: its store, the request there, and its environment when the input arrives and when it is polled. */
  datatype Peer = Peer(cfg: AccessServer.AccessConfig, store: AccessServer.Store, id: string, env: AccessServer.Env, polledAt: nat, join: string -> string)

  function PeerResumed(p: Peer): (r: (AccessServer.Store, Option<AccessServer.Reply>)) {
    AccessServer.Resumed(p.cfg, p.store, p.id, p.env)
  }

  /** The Person Server hears what that server answers, to the post and to the poll after it. */
  predicate Hears(env: PersonServer.Env, p: Peer) {
    && env.asResume == PostAnswer(PeerResumed(p).1)
    && env.asPoll == PollAnswer(Polled(PeerResumed(p).0, p.id, p.polledAt).1, p.join)
  }

  /** A federated record that is neither missing nor expired. */
  predicate Relaying(store: PersonServer.Store, id: string, env: PersonServer.Env) {
    id in store && !IsExpired(store[id], env.now) && store[id].context.federation.Some?
  }

  /** The request at the Access Server is neither missing nor expired, when the input arrives and when it is polled. */
  predicate Alive(p: Peer) {
    p.id in p.store && !IsExpired(p.store[p.id], p.env.now) && !IsExpired(p.store[p.id], p.polledAt)
  }

  /** The branch for an Access Server that goes on waiting is never taken. */
  lemma RelayNeverMoves(cfg: PersonServer.PersonConfig, store: PersonServer.Store, id: string, input: PendingInput, env: PersonServer.Env, p: Peer)
    requires Hears(env, p) && Relaying(store, id, env)
    ensures var (_, reply) := PersonServer.Resumed(cfg, store, id, input, env); !(reply.Ok? && reply.value.Deferred?)
  {
    NeverWaiting(Polled(PeerResumed(p).0, p.id, p.polledAt).1, p.join);
  }

  lemma PeerDefers(p: Peer, requirement: Requirement)
    requires Alive(p) && p.env.decision == Some(AccessServer.Defer(requirement))
    ensures PostAnswer(PeerResumed(p).1) in {None, Some(None)}
    ensures Polled(PeerResumed(p).0, p.id, p.polledAt).1 == StillPending(Pending, requirement)
  {
  }

  /** An input relayed to a server that goes on waiting ends in a bad gateway and changes nothing. */
  lemma RelayToWaiting(
    cfg: PersonServer.PersonConfig, store: PersonServer.Store, id: string, input: PendingInput, env: PersonServer.Env, p: Peer, requirement: Requirement)
    requires Hears(env, p) && Relaying(store, id, env) && !input.Cancelled?
    requires Alive(p) && p.env.decision == Some(AccessServer.Defer(requirement))
    ensures PersonServer.Resumed(cfg, store, id, input, env) == (store, Ok(PersonServer.BadGateway))
  {
    PeerDefers(p, requirement);
    NeverWaiting(StillPending(Pending, requirement), p.join);
  }

  lemma PeerDenies(p: Peer, error: ProtocolError)
    requires Alive(p) && p.env.decision == Some(AccessServer.Deny(error))
    ensures PostAnswer(PeerResumed(p).1) == Some(None)
    ensures Polled(PeerResumed(p).0, p.id, p.polledAt).1 == Finished(Failed(error))
  {
  }

  /** A denial forgets the request when it is about an invalid code, is a bad gateway when it is about time or the server, and is passed on otherwise. */
  lemma RelayToDenying(
    cfg: PersonServer.PersonConfig, store: PersonServer.Store, id: string, input: PendingInput, env: PersonServer.Env, p: Peer, error: ProtocolError)
    requires Hears(env, p) && Relaying(store, id, env) && !input.Cancelled?
    requires Alive(p) && p.env.decision == Some(AccessServer.Deny(error))
    ensures PersonServer.Resumed(cfg, store, id, input, env)
            == if Says(error, {"expired", "interaction_expired", "slow_down", "server_error", "temporarily_unavailable"}) then
                 (store, Ok(PersonServer.BadGateway))
               else if Says(error, {"invalid_code"}) then (Removed(store, id), Ok(PersonServer.Gone))
               else (Completed(store, id, Failed(ReadBack(error))), Ok(PersonServer.Denied(ReadBack(error))))
  {
    PeerDenies(p, error);
    PollingStatusExactly(error);
  }

  lemma PeerGone(p: Peer)
    requires p.id !in p.store || IsExpired(p.store[p.id], p.env.now)
    ensures PostAnswer(PeerResumed(p).1) == Some(None) && Polled(PeerResumed(p).0, p.id, p.polledAt).1 == PollGone
  {
  }

  /** A request that the Access Server has lost is forgotten here too. */
  lemma RelayToGone(cfg: PersonServer.PersonConfig, store: PersonServer.Store, id: string, input: PendingInput, env: PersonServer.Env, p: Peer)
    requires Hears(env, p) && Relaying(store, id, env) && !input.Cancelled?
    requires p.id !in p.store || IsExpired(p.store[p.id], p.env.now)
    ensures PersonServer.Resumed(cfg, store, id, input, env) == (Removed(store, id), Ok(PersonServer.Gone))
  {
    PeerGone(p);
  }

  /** A grant completes the request with the token, if the token passes. */
  lemma RelayToGranting(
    cfg: PersonServer.PersonConfig, store: PersonServer.Store, id: string, input: PendingInput, env: PersonServer.Env, p: Peer, body: TokenResponse)
    requires Hears(env, p) && Relaying(store, id, env) && !input.Cancelled?
    requires PeerResumed(p).1 == Some(AccessServer.Granted(body))
    ensures var c := store[id].context;
            PersonServer.Resumed(cfg, store, id, input, env)
            == if VerifyFederatedAuthToken(body.authToken, c.federation.value.accessServerUrl, cfg.resourceUrl, c.agentToken, env.trust, env.now).None?
               then (Completed(store, id, AuthToken(body)), Ok(PersonServer.Granted(body)))
               else (store, Ok(PersonServer.Unauthorized))
  {
  }

  /** An exchange that the Access Server refuses, loses or fails is unauthorized for the agent, and nothing is stored. */
  lemma RefusedExchange(
    cfg: PersonServer.PersonConfig, store: PersonServer.Store, ctx: PersonServer.TokenContext, agentJwt: Jwt, env: PersonServer.Env,
    reply: Option<AccessServer.Reply>, join: string -> string)
    requires reply.Some? ==> reply.value.Denied? || reply.value.Gone?
    requires ctx.resourceClaims.interaction.None? && env.decision == Some(PersonServer.Federate)
    requires env.asExchange == ExchangeAnswer(reply, join)
    ensures PersonServer.Exchanged(cfg, store, ctx, agentJwt, env) == (store, Ok(PersonServer.Unauthorized))
  {
  }
}
