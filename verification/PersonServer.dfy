/**
 The Person Server's token service over its pending store.

 Each entry point is a method on the shared store, proved against a function from the
 store before the call (and what the environment answered during it) to the store after
 it and the reply. Policy decisions, the Access Server's answers, fresh ids, random bytes
 and the clock are the environment.
 */
module PersonServer {
  import opened Prelude
  import opened Text
  import opened Tokens
  import opened Deferral
  import opened PendingStore
  import opened InteractionCode

  // ----- data -----

  datatype PersonConfig = PersonConfig(
    personServerUrl: string, resourceUrl: string, interactionUrl: string,
    pendingBaseUrl: string, pendingPath: string, ttl: nat, key: Jwk, kid: Option<string>)

  datatype ExchangeRequest = ExchangeRequest(resourceToken: Jwt, justification: Option<string>)

  datatype TokenContext = TokenContext(
    personServerUrl: string, resourceUrl: string,
    agentClaims: AgentClaims, resourceClaims: ResourceClaims, request: ExchangeRequest)

  datatype Federation = Federation(accessServerUrl: string, asPendingUrl: string)

  datatype PersonContext = PersonContext(
    personServerUrl: string, resourceUrl: string,
    agentClaims: AgentClaims, resourceClaims: ResourceClaims, request: ExchangeRequest,
    agentToken: Jwt, federation: Option<Federation>,
    resourceInteraction: Option<InteractionClaim>, code: Option<string>, codeConsumed: bool)

  type Store = Records<PersonContext>

  datatype Decision = Grant(sub: string, scope: Option<string>) | Federate | Deny(error: ProtocolError) | Defer(requirement: Requirement)

  datatype FlowOutcome =
    | Granted(body: TokenResponse)
    | Deferred(location: string, requirement: Requirement)
    | Denied(error: ProtocolError)
    | Gone
    | Unauthorized
    | BadGateway

  datatype InteractionOutcome = Redirect(url: string) | InvalidCode | ExpiredRequest | PendingPage(body: PendingBody)

  datatype ServiceError = PolicyFailed | MintFailed | MissingResourceInteraction | InvalidInteractionUrl | NoPendingBody

  /** The Access Server's reply to a token exchange, and to a poll of its pending URL. */
  datatype AsExchange = AsComplete(body: TokenResponse) | AsDeferred(requirement: Requirement, asPendingUrl: string)

  datatype AsPoll = AsToken(body: TokenResponse) | AsWaiting(requirement: Requirement, locationUrl: string) | AsError(error: ProtocolError) | AsGone

  /** Everything one call learns from outside; None stands for an error reply. */
  datatype Env = Env(
    now: nat, freshId: string, codeBytes: CodeBytes,
    decision: Option<Decision>,
    jti: Option<string>,
    asMetadata: bool, asExchange: Option<AsExchange>,
    asResume: Option<Option<TokenResponse>>, asPoll: Option<AsPoll>,
    trust: Trust,
    redirect: (InteractionClaim, string) -> Option<string>)

  // ----- pieces -----

  function PendingLocation(cfg: PersonConfig, id: string): (r: string) {
    PendingUrl(cfg.pendingBaseUrl, cfg.pendingPath, id)
  }

  function VerifyTokenRequest(cfg: PersonConfig, agentJwt: Jwt, agentJkt: Thumb, request: ExchangeRequest, env: Env)
    : (r: Result<TokenContext, VerifyError>)
  {
    match Parse(agentJwt)
    case Err(e) => Err(e)
    case Ok(Auth(_)) => Err(WrongTyp)
    case Ok(Resource(_)) => Err(WrongTyp)
    case Ok(Agent(agent)) =>
      match VerifyResourceToken(request.resourceToken, Some(agent.sub), Some(agentJkt), env.trust, env.now)
      case Err(e) => Err(e)
      case Ok(claims) => Ok(TokenContext(cfg.personServerUrl, cfg.resourceUrl, agent, claims, request))
  }

  function MintPersonAuth(cfg: PersonConfig, env: Env, sub: string, scope: Option<string>, agent: AgentClaims)
    : (r: Option<TokenResponse>)
  {
    match env.jti
    case None => None
    case Some(jti) =>
      Some(TokenResponse(
             EncodeAuthJwt(cfg.key, cfg.kid, "aauth-person.json", cfg.personServerUrl, cfg.resourceUrl,
                           agent.sub, agent.cnf, Some(sub), scope, env.now, jti),
             3600))
  }

  datatype FederationOutcome = FedComplete(body: TokenResponse) | FedDeferred(requirement: Requirement, federation: Federation)

  function FederateToAccessServer(cfg: PersonConfig, env: Env, resourceToken: Jwt, agentToken: Jwt)
    : (r: Option<FederationOutcome>)
  {
    match Parse(resourceToken)
    case Err(_) => None
    case Ok(Agent(_)) => None
    case Ok(Auth(_)) => None
    case Ok(Resource(claims)) =>
      var accessServerUrl := TrimSlash(claims.aud);
      if !env.asMetadata then None
      else match env.asExchange
        case None => None
        case Some(AsComplete(body)) =>
          if VerifyFederatedAuthToken(body.authToken, accessServerUrl, cfg.resourceUrl, agentToken, env.trust, env.now).Some?
          then None
          else Some(FedComplete(body))
        case Some(AsDeferred(requirement, url)) => Some(FedDeferred(requirement, Federation(accessServerUrl, url)))
  }

  function MapCallbackError(error: string): (r: ProtocolError) {
    var code :=
      if error == "access_denied" then DeniedCode
      else if error == "user_abandoned" then AbandonedCode
      else if error == "interaction_expired" then ExpiredCode
      else if error == "server_error" || error == "temporarily_unavailable" then ServerErrorCode
      else CustomCode(error);
    ProtocolError(code, Some(error))
  }

  const REQUEST_CANCELLED := ProtocolError(AccessDeniedCode, Some("Request cancelled"))

  function ContextOf(c: PersonContext): (r: TokenContext) {
    TokenContext(c.personServerUrl, c.resourceUrl, c.agentClaims, c.resourceClaims, c.request)
  }

  function PendingContext(
    ctx: TokenContext, agentJwt: Jwt, federation: Option<Federation>,
    resourceInteraction: Option<InteractionClaim>, code: Option<string>): (r: PersonContext)
  {
    PersonContext(ctx.personServerUrl, ctx.resourceUrl, ctx.agentClaims, ctx.resourceClaims, ctx.request,
                  agentJwt, federation, resourceInteraction, code, false)
  }

  function WaitFor(requirement: Requirement): (r: Snapshot) { Waiting(Pending, requirement) }

  type Reply = Result<FlowOutcome, ServiceError>

  // ----- what each operation does to the store -----

  function Created(cfg: PersonConfig, store: Store, context: PersonContext, requirement: Requirement, env: Env)
    : (r: (Store, Reply))
  {
    var record := NewRecord(env.freshId, context, WaitFor(requirement), cfg.ttl, env.now);
    (store[env.freshId := record], Ok(Deferred(PendingLocation(cfg, env.freshId), requirement)))
  }

  /** The record waits again, with `context` in place of its own if one is given; an id that has gone meanwhile is left gone. */
  function Rewaited(cfg: PersonConfig, store: Store, id: string, context: Option<PersonContext>, requirement: Requirement)
    : (r: (Store, Reply))
  {
    if id !in store then (store, Ok(Gone))
    else
      (store[id := store[id].(context := if context.Some? then context.value else store[id].context, snapshot := WaitFor(requirement))],
       Ok(Deferred(PendingLocation(cfg, id), requirement)))
  }

  function Exchanged(cfg: PersonConfig, store: Store, ctx: TokenContext, agentJwt: Jwt, env: Env): (r: (Store, Reply))
  {
    if ctx.resourceClaims.interaction.Some? then
      var code := CodeOfBytes(env.codeBytes);
      Created(cfg, store,
              PendingContext(ctx, agentJwt, None, ctx.resourceClaims.interaction, Some(Canonicalize(code))),
              Interaction(cfg.interactionUrl, code), env)
    else
      match env.decision
      case None => (store, Err(PolicyFailed))
      case Some(Grant(sub, scope)) =>
        (match MintPersonAuth(cfg, env, sub, scope, ctx.agentClaims)
         case None => (store, Err(MintFailed))
         case Some(body) => (store, Ok(Granted(body))))
      case Some(Federate) =>
        (match FederateToAccessServer(cfg, env, ctx.request.resourceToken, agentJwt)
         case None => (store, Ok(Unauthorized))
         case Some(FedComplete(body)) => (store, Ok(Granted(body)))
         case Some(FedDeferred(requirement, federation)) =>
           Created(cfg, store, PendingContext(ctx, agentJwt, Some(federation), None, None), requirement, env))
      case Some(Deny(error)) => (store, Ok(Denied(error)))
      case Some(Defer(requirement)) =>
        Created(cfg, store, PendingContext(ctx, agentJwt, None, None, None), requirement, env)
  }

  /** The token endpoint: verify the request, then exchange. */
  function Requested(cfg: PersonConfig, store: Store, agentJwt: Jwt, agentJkt: Thumb, request: ExchangeRequest, env: Env)
    : (r: (Store, Reply))
  {
    match VerifyTokenRequest(cfg, agentJwt, agentJkt, request, env)
    case Err(_) => (store, Ok(Unauthorized))
    case Ok(ctx) => Exchanged(cfg, store, ctx, agentJwt, env)
  }

  /** A policy decision applied to a record that is already pending. */
  function Decided(cfg: PersonConfig, store: Store, id: string, ctx: TokenContext, agentJwt: Jwt, env: Env)
    : (r: (Store, Reply))
  {
    match env.decision
    case None => (store, Err(PolicyFailed))
    case Some(Grant(sub, scope)) =>
      (match MintPersonAuth(cfg, env, sub, scope, ctx.agentClaims)
       case None => (store, Err(MintFailed))
       case Some(body) => (Completed(store, id, AuthToken(body)), Ok(Granted(body))))
    case Some(Federate) =>
      (match FederateToAccessServer(cfg, env, ctx.request.resourceToken, agentJwt)
       case None => (store, Ok(Unauthorized))
       case Some(FedComplete(body)) => (Completed(store, id, AuthToken(body)), Ok(Granted(body)))
       case Some(FedDeferred(requirement, federation)) =>
         Rewaited(cfg, store, id, Some(PendingContext(ctx, agentJwt, Some(federation), None, None)), requirement))
    case Some(Deny(error)) => (Completed(store, id, Failed(error)), Ok(Denied(error)))
    case Some(Defer(requirement)) => Rewaited(cfg, store, id, None, requirement)
  }

  /** Agent input relayed to the Access Server a record was federated to. */
  function Relayed(cfg: PersonConfig, store: Store, id: string, federation: Federation, agentToken: Jwt, input: PendingInput, env: Env)
    : (r: (Store, Reply))
  {
    if input.Cancelled? then (Completed(store, id, Failed(REQUEST_CANCELLED)), Ok(Denied(REQUEST_CANCELLED)))
    else if env.asResume.None? then (store, Ok(BadGateway))
    else
      var poll: Option<AsPoll> := if env.asResume.value.Some? then Some(AsToken(env.asResume.value.value)) else env.asPoll;
      match poll
      case None => (store, Ok(BadGateway))
      case Some(AsToken(body)) =>
        if VerifyFederatedAuthToken(body.authToken, federation.accessServerUrl, cfg.resourceUrl, agentToken, env.trust, env.now).Some?
        then (store, Ok(Unauthorized))
        else (Completed(store, id, AuthToken(body)), Ok(Granted(body)))
      case Some(AsWaiting(requirement, url)) =>
        if id !in store then (store, Ok(Gone))
        else Rewaited(cfg, store, id,
                      Some(store[id].context.(federation := Some(Federation(federation.accessServerUrl, url)))), requirement)
      case Some(AsError(error)) => (Completed(store, id, Failed(error)), Ok(Denied(error)))
      case Some(AsGone) => (Removed(store, id), Ok(Gone))
  }

  function Resumed(cfg: PersonConfig, store: Store, id: string, input: PendingInput, env: Env): (r: (Store, Reply)) {
    if id !in store then (store, Ok(Gone))
    else if IsExpired(store[id], env.now) then (Removed(store, id), Ok(Gone))
    else
      var c := store[id].context;
      if c.federation.Some? then Relayed(cfg, store, id, c.federation.value, c.agentToken, input, env)
      else Decided(cfg, store, id, ContextOf(c), c.agentToken, env)
  }

  function CalledBack(cfg: PersonConfig, store: Store, id: string, error: Option<string>, env: Env): (r: (Store, Reply)) {
    if id !in store then (store, Ok(Gone))
    else if IsExpired(store[id], env.now) then (Removed(store, id), Ok(Gone))
    else if error.Some? then
      var mapped := MapCallbackError(error.value);
      (Completed(store, id, Failed(mapped)), Ok(Denied(mapped)))
    else
      var c := store[id].context;
      if c.federation.Some? then (store, Ok(BadGateway))
      else
        var ctx := ContextOf(c);
        Decided(cfg, store, id, ctx.(resourceClaims := ctx.resourceClaims.(interaction := None)), c.agentToken, env)
  }

  /** A record the lookup of a canonical code may return. */
  predicate Matches(record: Record<PersonContext>, canonical: string) {
    record.context.code == Some(canonical) && !record.context.codeConsumed
  }

  function Consumed(record: Record<PersonContext>): (r: Record<PersonContext>) {
    var r := record.(context := record.context.(codeConsumed := true));
    match r.snapshot
    case Waiting(_, requirement) => r.(snapshot := Waiting(Interacting, requirement))
    case Complete(_) => r
  }

  function CallbackUrl(cfg: PersonConfig, id: string): (r: string) {
    TrimSlash(cfg.interactionUrl) + "/callback?id=" + id
  }

  type InteractionReply = Result<InteractionOutcome, ServiceError>

  /** The interaction page opened with a code whose lookup found `found`. */
  function Begun(cfg: PersonConfig, store: Store, found: Option<string>, env: Env): (r: (Store, InteractionReply))
    requires found.Some? ==> found.value in store
  {
    match found
    case None => (store, Ok(InvalidCode))
    case Some(id) =>
      if IsExpired(store[id], env.now) then (Removed(store, id), Ok(ExpiredRequest))
      else
        var record := Consumed(store[id]);
        var store' := store[id := record];
        match record.context.resourceInteraction
        case Some(claim) =>
          (match env.redirect(claim, CallbackUrl(cfg, id))
           case None => (store', Err(InvalidInteractionUrl))
           case Some(url) => (store', Ok(Redirect(url))))
        case None =>
          match record.snapshot
          case Complete(_) => (store', Ok(InvalidCode))
          case Waiting(_, requirement) =>
            match BodyForWaiting(requirement, Interacting)
            case None => (store', Err(NoPendingBody))
            case Some(body) => (store', Ok(PendingPage(body)))
  }

  // ----- the service -----

  class PersonTokenService {
    const config: PersonConfig
    const pending: InMemoryPendingStore<PersonContext>

    constructor (config: PersonConfig, pending: InMemoryPendingStore<PersonContext>)
      ensures this.config == config && this.pending == pending
    {
      this.config := config;
      this.pending := pending;
    }

    method CreateFederatedDeferred(
      ctx: TokenContext, pendingId: Option<string>, requirement: Requirement, federation: Federation, agentJwt: Jwt, env: Env)
      returns (reply: Reply)
      modifies pending
      ensures pendingId.None? ==>
                (pending.records, reply)
                == Created(config, old(pending.records), PendingContext(ctx, agentJwt, Some(federation), None, None), requirement, env)
      ensures pendingId.Some? ==>
                (pending.records, reply)
                == Rewaited(config, old(pending.records), pendingId.value,
                            Some(PendingContext(ctx, agentJwt, Some(federation), None, None)), requirement)
    {
      var id := if pendingId.Some? then pendingId.value else env.freshId;
      var location := PendingLocation(config, id);
      var context := PendingContext(ctx, agentJwt, Some(federation), None, None);
      if pendingId.Some? {
        var found := pending.Load(id);
        if found.None? {
          return Ok(Gone);
        }
        var record := found.value;
        record := record.(context := context);
        record := record.(snapshot := WaitFor(requirement));
        pending.Save(id, record);
      } else {
        var _ := pending.Create(NewRecord(id, context, WaitFor(requirement), config.ttl, env.now));
      }
      reply := Ok(Deferred(location, requirement));
    }

    method CreateDeferred(ctx: TokenContext, requirement: Requirement, agentJwt: Jwt, env: Env) returns (reply: Reply)
      modifies pending
      ensures (pending.records, reply)
           == Created(config, old(pending.records), PendingContext(ctx, agentJwt, None, None, None), requirement, env)
    {
      var location := PendingLocation(config, env.freshId);
      var context := PendingContext(ctx, agentJwt, None, None, None);
      var _ := pending.Create(NewRecord(env.freshId, context, WaitFor(requirement), config.ttl, env.now));
      reply := Ok(Deferred(location, requirement));
    }

    method CreateResourceInitiated(ctx: TokenContext, agentJwt: Jwt, env: Env) returns (reply: Reply)
      modifies pending
      ensures ctx.resourceClaims.interaction.Some? ==>
                (pending.records, reply) == Exchanged(config, old(pending.records), ctx, agentJwt, env)
      ensures ctx.resourceClaims.interaction.None? ==>
                pending.records == old(pending.records) && reply == Err(MissingResourceInteraction)
    {
      var claim := ctx.resourceClaims.interaction;
      if claim.None? {
        return Err(MissingResourceInteraction);
      }
      var code := GenerateCode(env.codeBytes);
      var requirement := Interaction(config.interactionUrl, code);
      var location := PendingLocation(config, env.freshId);
      var context := PendingContext(ctx, agentJwt, None, claim, Some(Canonicalize(code)));
      var _ := pending.Create(NewRecord(env.freshId, context, WaitFor(requirement), config.ttl, env.now));
      reply := Ok(Deferred(location, requirement));
    }

    method ExchangeToken(ctx: TokenContext, agentJwt: Jwt, env: Env) returns (reply: Reply)
      modifies pending
      ensures (pending.records, reply) == Exchanged(config, old(pending.records), ctx, agentJwt, env)
    {
      if ctx.resourceClaims.interaction.Some? {
        reply := CreateResourceInitiated(ctx, agentJwt, env);
        return;
      }
      if env.decision.None? {
        return Err(PolicyFailed);
      }
      match env.decision.value {
        case Grant(sub, scope) =>
          var body := MintPersonAuth(config, env, sub, scope, ctx.agentClaims);
          reply := if body.None? then Err(MintFailed) else Ok(Granted(body.value));
        case Federate =>
          match FederateToAccessServer(config, env, ctx.request.resourceToken, agentJwt) {
            case None => reply := Ok(Unauthorized);
            case Some(FedComplete(body)) => reply := Ok(Granted(body));
            case Some(FedDeferred(requirement, federation)) =>
              reply := CreateFederatedDeferred(ctx, None, requirement, federation, agentJwt, env);
          }
        case Deny(error) => reply := Ok(Denied(error));
        case Defer(requirement) => reply := CreateDeferred(ctx, requirement, agentJwt, env);
      }
    }

    method HandleTokenRequest(agentJwt: Jwt, agentJkt: Thumb, request: ExchangeRequest, env: Env) returns (reply: Reply)
      modifies pending
      ensures (pending.records, reply) == Requested(config, old(pending.records), agentJwt, agentJkt, request, env)
    {
      var verified := VerifyTokenRequest(config, agentJwt, agentJkt, request, env);
      if verified.Err? {
        return Ok(Unauthorized);
      }
      reply := ExchangeToken(verified.value, agentJwt, env);
    }

    method Poll(id: string, now: nat) returns (outcome: PollOutcome)
      modifies pending
      ensures (pending.records, outcome) == Polled(old(pending.records), id, now)
    {
      outcome := PollAuthPending(pending, id, now);
    }

    method UpdatePendingDefer(id: string, requirement: Requirement) returns (reply: Reply)
      modifies pending
      ensures (pending.records, reply) == Rewaited(config, old(pending.records), id, None, requirement)
    {
      var found := pending.Load(id);
      if found.None? {
        return Ok(Gone);
      }
      var record := found.value;
      record := record.(snapshot := WaitFor(requirement));
      pending.Save(id, record);
      reply := Ok(Deferred(PendingLocation(config, id), requirement));
    }

    method ApplyPendingDecision(ctx: TokenContext, id: string, agentJwt: Jwt, env: Env) returns (reply: Reply)
      modifies pending
      ensures (pending.records, reply) == Decided(config, old(pending.records), id, ctx, agentJwt, env)
    {
      if env.decision.None? {
        return Err(PolicyFailed);
      }
      match env.decision.value {
        case Grant(sub, scope) =>
          var body := MintPersonAuth(config, env, sub, scope, ctx.agentClaims);
          if body.None? {
            return Err(MintFailed);
          }
          pending.CompleteWith(id, AuthToken(body.value));
          reply := Ok(Granted(body.value));
        case Federate =>
          match FederateToAccessServer(config, env, ctx.request.resourceToken, agentJwt) {
            case None => reply := Ok(Unauthorized);
            case Some(FedComplete(body)) =>
              pending.CompleteWith(id, AuthToken(body));
              reply := Ok(Granted(body));
            case Some(FedDeferred(requirement, federation)) =>
              reply := CreateFederatedDeferred(ctx, Some(id), requirement, federation, agentJwt, env);
          }
        case Deny(error) =>
          pending.CompleteWith(id, Failed(error));
          reply := Ok(Denied(error));
        case Defer(requirement) => reply := UpdatePendingDefer(id, requirement);
      }
    }

    method HandleFederatedPost(id: string, federation: Federation, agentToken: Jwt, input: PendingInput, env: Env)
      returns (reply: Reply)
      modifies pending
      ensures (pending.records, reply) == Relayed(config, old(pending.records), id, federation, agentToken, input, env)
    {
      if input.Cancelled? {
        pending.CompleteWith(id, Failed(REQUEST_CANCELLED));
        return Ok(Denied(REQUEST_CANCELLED));
      }
      if env.asResume.None? {
        return Ok(BadGateway);
      }
      var poll := env.asPoll;
      if env.asResume.value.Some? {
        poll := Some(AsToken(env.asResume.value.value));
      }
      match poll {
        case None => reply := Ok(BadGateway);
        case Some(AsToken(body)) =>
          var refused := VerifyFederatedAuthToken(
            body.authToken, federation.accessServerUrl, config.resourceUrl, agentToken, env.trust, env.now);
          if refused.Some? {
            return Ok(Unauthorized);
          }
          pending.CompleteWith(id, AuthToken(body));
          reply := Ok(Granted(body));
        case Some(AsWaiting(requirement, url)) =>
          var found := pending.Load(id);
          if found.None? {
            return Ok(Gone);
          }
          var record := found.value;
          record := record.(snapshot := WaitFor(requirement));
          record := record.(context := record.context.(federation := Some(Federation(federation.accessServerUrl, url))));
          pending.Save(id, record);
          reply := Ok(Deferred(PendingLocation(config, id), requirement));
        case Some(AsError(error)) =>
          pending.CompleteWith(id, Failed(error));
          reply := Ok(Denied(error));
        case Some(AsGone) =>
          pending.Remove(id);
          reply := Ok(Gone);
      }
    }

    method ResumePending(id: string, input: PendingInput, env: Env) returns (reply: Reply)
      modifies pending
      ensures (pending.records, reply) == Resumed(config, old(pending.records), id, input, env)
    {
      var found := pending.Load(id);
      if found.None? {
        return Ok(Gone);
      }
      var record := found.value;
      if IsExpired(record, env.now) {
        pending.Remove(id);
        return Ok(Gone);
      }
      if record.context.federation.Some? {
        reply := HandleFederatedPost(id, record.context.federation.value, record.context.agentToken, input, env);
        return;
      }
      reply := ApplyPendingDecision(ContextOf(record.context), id, record.context.agentToken, env);
    }

    method BeginInteraction(code: string, env: Env) returns (reply: InteractionReply, ghost found: Option<string>)
      modifies pending
      ensures found.Some? ==> found.value in old(pending.records) && Matches(old(pending.records)[found.value], Canonicalize(code))
      ensures found.None? ==> forall id :: id in old(pending.records) ==> !Matches(old(pending.records)[id], Canonicalize(code))
      ensures (pending.records, reply) == Begun(config, old(pending.records), found, env)
    {
      var canonical := Canonicalize(code);
      found := None;
      var match_ := pending.FindIf(r => Matches(r, canonical));
      if match_.None? {
        return Ok(InvalidCode), None;
      }
      var id, record := match_.value.0, match_.value.1;
      found := Some(id);
      if IsExpired(record, env.now) {
        pending.Remove(id);
        return Ok(ExpiredRequest), found;
      }
      record := record.(context := record.context.(codeConsumed := true));
      if record.snapshot.Waiting? {
        record := record.(snapshot := record.snapshot.(status := Interacting));
      }
      pending.Save(id, record);
      if record.context.resourceInteraction.Some? {
        var url := env.redirect(record.context.resourceInteraction.value, CallbackUrl(config, id));
        reply := if url.None? then Err(InvalidInteractionUrl) else Ok(Redirect(url.value));
        return;
      }
      if record.snapshot.Complete? {
        return Ok(InvalidCode), found;
      }
      var body := BodyForWaiting(record.snapshot.requirement, Interacting);
      reply := if body.None? then Err(NoPendingBody) else Ok(PendingPage(body.value));
    }

    method ResolveCallback(id: string, error: Option<string>, env: Env) returns (reply: Reply)
      modifies pending
      ensures (pending.records, reply) == CalledBack(config, old(pending.records), id, error, env)
    {
      var found := pending.Load(id);
      if found.None? {
        return Ok(Gone);
      }
      var record := found.value;
      if IsExpired(record, env.now) {
        pending.Remove(id);
        return Ok(Gone);
      }
      if error.Some? {
        var mapped := MapCallbackError(error.value);
        pending.CompleteWith(id, Failed(mapped));
        return Ok(Denied(mapped));
      }
      if record.context.federation.Some? {
        return Ok(BadGateway);
      }
      var ctx := ContextOf(record.context);
      ctx := ctx.(resourceClaims := ctx.resourceClaims.(interaction := None));
      reply := ApplyPendingDecision(ctx, id, record.context.agentToken, env);
    }
  }
}
