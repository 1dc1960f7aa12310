/**
 What each reply of the Person Server means, in terms of what was asked and what the
 environment answered: the exact conditions for every kind of reply, and the record that
 goes with it.
 */
module PersonAnswers {
  import opened Prelude
  import opened Text
  import opened Tokens
  import opened Deferral
  import opened PendingStore
  import opened InteractionCode
  import opened PersonServer

  // ----- decisions -----

  /** The auth token of a grant: from this server, for its resource, for one hour, bound to the agent and its key. */
  predicate GrantBody(cfg: PersonConfig, env: Env, agent: AgentClaims, sub: string, scope: Option<string>, body: TokenResponse) {
    && env.jti.Some?
    && body == TokenResponse(
                 AuthJwt(cfg.kid,
                         AuthClaims(iss := cfg.personServerUrl, dwk := "aauth-person.json", aud := cfg.resourceUrl, jti := env.jti.value,
                                    agent := agent.sub, act := None, cnf := agent.cnf, iat := env.now, exp := env.now + 3600,
                                    sub := Some(sub), scope := scope),
                         cfg.key),
                 3600)
  }

  /** The policy hands the request to an Access Server, whose metadata can be had. */
  predicate Federates(env: Env, resourceToken: Jwt) {
    env.decision == Some(Federate) && resourceToken.ResourceJwt? && env.asMetadata
  }

  /** The token comes from the server that the resource token names, and is good. */
  predicate Handed(cfg: PersonConfig, env: Env, resourceToken: Jwt, agentJwt: Jwt, body: TokenResponse)
    requires resourceToken.ResourceJwt?
  {
    FederatedTokenOk(body.authToken, resourceToken.resourceClaims.aud, cfg.resourceUrl, agentJwt, env.trust, env.now)
  }

  /** The decision comes to a token. */
  predicate DecidesToken(cfg: PersonConfig, env: Env, agent: AgentClaims, resourceToken: Jwt, agentJwt: Jwt, body: TokenResponse) {
    || (env.decision.Some? && env.decision.value.Grant?
        && GrantBody(cfg, env, agent, env.decision.value.sub, env.decision.value.scope, body))
    || (Federates(env, resourceToken) && env.asExchange == Some(AsComplete(body)) && Handed(cfg, env, resourceToken, agentJwt, body))
  }

  /** It comes to a wait at the Access Server that the resource token names. */
  predicate DecidesFederated(env: Env, resourceToken: Jwt, requirement: Requirement, federation: Federation) {
    && Federates(env, resourceToken)
    && env.asExchange == Some(AsDeferred(requirement, federation.asPendingUrl))
    && federation.accessServerUrl == TrimSlash(resourceToken.resourceClaims.aud)
  }

  /** It is to federate, and nothing came of it. */
  predicate FederationFails(cfg: PersonConfig, env: Env, resourceToken: Jwt, agentJwt: Jwt) {
    && env.decision == Some(Federate)
    && (!resourceToken.ResourceJwt? || !env.asMetadata || env.asExchange.None?
        || (env.asExchange.value.AsComplete? && !Handed(cfg, env, resourceToken, agentJwt, env.asExchange.value.body)))
  }

  lemma FederationExactly(cfg: PersonConfig, env: Env, resourceToken: Jwt, agentJwt: Jwt)
    requires env.decision == Some(Federate)
    ensures match FederateToAccessServer(cfg, env, resourceToken, agentJwt)
            case None => FederationFails(cfg, env, resourceToken, agentJwt)
            case Some(FedComplete(body)) =>
              Federates(env, resourceToken) && env.asExchange == Some(AsComplete(body)) && Handed(cfg, env, resourceToken, agentJwt, body)
            case Some(FedDeferred(requirement, federation)) => DecidesFederated(env, resourceToken, requirement, federation)
  {
    if resourceToken.ResourceJwt? && env.asExchange.Some? && env.asExchange.value.AsComplete? {
      TrimTwice(resourceToken.resourceClaims.aud);
      FederatedExactly(env.asExchange.value.body.authToken, TrimSlash(resourceToken.resourceClaims.aud), cfg.resourceUrl, agentJwt, env.trust, env.now);
    }
  }

  lemma TrimTwice(url: string)
    ensures TrimSlash(TrimSlash(url)) == TrimSlash(url)
  {
  }

  // ----- a token request -----

  /** An agent's request with a resource token made out to it and to the key it signs with. */
  predicate RequestOk(agentJwt: Jwt, agentJkt: Thumb, request: ExchangeRequest, env: Env) {
    && agentJwt.AgentJwt?
    && ResourceTokenOk(request.resourceToken, Some(agentJwt.agentClaims.sub), Some(agentJkt), env.trust, env.now)
  }

  function ContextFor(cfg: PersonConfig, agentJwt: Jwt, request: ExchangeRequest): (r: TokenContext)
    requires agentJwt.AgentJwt? && request.resourceToken.ResourceJwt?
  {
    TokenContext(cfg.personServerUrl, cfg.resourceUrl, agentJwt.agentClaims, request.resourceToken.resourceClaims, request)
  }

  /** Any other request is unauthorized and leaves the store alone. */
  lemma RequestExactly(cfg: PersonConfig, store: Store, agentJwt: Jwt, agentJkt: Thumb, request: ExchangeRequest, env: Env)
    ensures Requested(cfg, store, agentJwt, agentJkt, request, env)
            == if RequestOk(agentJwt, agentJkt, request, env) then Exchanged(cfg, store, ContextFor(cfg, agentJwt, request), agentJwt, env)
               else (store, Ok(Unauthorized))
  {
    if agentJwt.AgentJwt? {
      ResourceTokenExactly(request.resourceToken, Some(agentJwt.agentClaims.sub), Some(agentJkt), env.trust, env.now);
    }
  }

  /** The resource asks for an interaction of its own. */
  predicate AsksInteraction(request: ExchangeRequest) {
    request.resourceToken.ResourceJwt? && request.resourceToken.resourceClaims.interaction.Some?
  }

  /** A fresh code from the random bytes, for this server's own page. */
  predicate FreshCode(cfg: PersonConfig, env: Env, requirement: Requirement) {
    && requirement.Interaction? && requirement.url == cfg.interactionUrl
    && IsCode(requirement.code) && DecodeCode(requirement.code) == env.codeBytes
  }

  /** The request is good, and the policy decides it. */
  predicate Decides(agentJwt: Jwt, agentJkt: Thumb, request: ExchangeRequest, env: Env) {
    RequestOk(agentJwt, agentJkt, request, env) && !AsksInteraction(request)
  }

  lemma FreshCodeExactly(cfg: PersonConfig, env: Env, requirement: Requirement)
    ensures FreshCode(cfg, env, requirement) <==> requirement == Interaction(cfg.interactionUrl, CodeOfBytes(env.codeBytes))
  {
    BytesRoundTrip(env.codeBytes);
    CodeShape(Value(256, env.codeBytes));
    if requirement.Interaction? && IsCode(requirement.code) {
      CodeRoundTrip(requirement.code);
    }
  }

  lemma DecidedToken(cfg: PersonConfig, store: Store, ctx: TokenContext, agentJwt: Jwt, env: Env, body: TokenResponse)
    requires ctx.resourceClaims.interaction.None?
    ensures Exchanged(cfg, store, ctx, agentJwt, env).1 == Ok(Granted(body))
            <==> DecidesToken(cfg, env, ctx.agentClaims, ctx.request.resourceToken, agentJwt, body)
  {
    if env.decision == Some(Federate) {
      FederationExactly(cfg, env, ctx.request.resourceToken, agentJwt);
    }
  }

  lemma DecidedWait(cfg: PersonConfig, store: Store, ctx: TokenContext, agentJwt: Jwt, env: Env, location: string, requirement: Requirement)
    requires ctx.resourceClaims.interaction.None?
    ensures Exchanged(cfg, store, ctx, agentJwt, env).1 == Ok(Deferred(location, requirement)) <==>
              && location == PendingLocation(cfg, env.freshId)
              && (env.decision == Some(Defer(requirement)) || FederatesWaiting(env, ctx.request.resourceToken, requirement))
  {
    if env.decision == Some(Federate) {
      FederationExactly(cfg, env, ctx.request.resourceToken, agentJwt);
    }
  }

  lemma DecidedOtherwise(cfg: PersonConfig, store: Store, ctx: TokenContext, agentJwt: Jwt, env: Env, error: ProtocolError)
    requires ctx.resourceClaims.interaction.None?
    ensures var reply := Exchanged(cfg, store, ctx, agentJwt, env).1;
            && (reply == Ok(Denied(error)) <==> env.decision == Some(Deny(error)))
            && (reply == Ok(Unauthorized) <==> FederationFails(cfg, env, ctx.request.resourceToken, agentJwt))
            && (reply.Err? <==> env.decision.None? || (env.decision.value.Grant? && env.jti.None?))
  {
    if env.decision == Some(Federate) {
      FederationExactly(cfg, env, ctx.request.resourceToken, agentJwt);
    }
  }

  /** The Access Server answers that it waits. */
  predicate FederatesWaiting(env: Env, resourceToken: Jwt, requirement: Requirement) {
    && Federates(env, resourceToken) && env.asExchange.Some? && env.asExchange.value.AsDeferred?
    && env.asExchange.value.requirement == requirement
  }

  /** A token is granted at once exactly when ... */
  lemma RequestGranted(cfg: PersonConfig, store: Store, agentJwt: Jwt, agentJkt: Thumb, request: ExchangeRequest, env: Env, body: TokenResponse)
    ensures Requested(cfg, store, agentJwt, agentJkt, request, env).1 == Ok(Granted(body)) <==>
              && Decides(agentJwt, agentJkt, request, env)
              && DecidesToken(cfg, env, agentJwt.agentClaims, request.resourceToken, agentJwt, body)
  {
    RequestExactly(cfg, store, agentJwt, agentJkt, request, env);
    if Decides(agentJwt, agentJkt, request, env) {
      DecidedToken(cfg, store, ContextFor(cfg, agentJwt, request), agentJwt, env, body);
    }
  }

  /** The record an exchange opens. */
  predicate Opened(
    cfg: PersonConfig, agentJwt: Jwt, request: ExchangeRequest, env: Env, requirement: Requirement, record: Record<PersonContext>)
    requires agentJwt.AgentJwt? && request.resourceToken.ResourceJwt?
  {
    var claims := request.resourceToken.resourceClaims;
    && record.id == env.freshId && record.createdAt == env.now && record.expiresAt == env.now + cfg.ttl
    && record.snapshot == Waiting(Pending, requirement)
    && record.context.request == request && record.context.agentToken == agentJwt
    && record.context.personServerUrl == cfg.personServerUrl && record.context.resourceUrl == cfg.resourceUrl
    && record.context.agentClaims == agentJwt.agentClaims && record.context.resourceClaims == claims
    && !record.context.codeConsumed
    && record.context.resourceInteraction == claims.interaction
    && record.context.code == (if claims.interaction.Some? && requirement.Interaction? then Some(requirement.code) else None)
    && (record.context.federation.Some? <==> claims.interaction.None? && env.decision == Some(Federate))
    && (record.context.federation.Some? ==> DecidesFederated(env, request.resourceToken, requirement, record.context.federation.value))
  }

  /** ... and is deferred, to a location of its own, exactly when ... */
  lemma RequestDeferred(
    cfg: PersonConfig, store: Store, agentJwt: Jwt, agentJkt: Thumb, request: ExchangeRequest, env: Env, location: string, requirement: Requirement)
    ensures Requested(cfg, store, agentJwt, agentJkt, request, env).1 == Ok(Deferred(location, requirement)) <==>
              && location == PendingUrl(cfg.pendingBaseUrl, cfg.pendingPath, env.freshId)
              && RequestOk(agentJwt, agentJkt, request, env)
              && if AsksInteraction(request) then FreshCode(cfg, env, requirement)
                 else env.decision == Some(Defer(requirement)) || FederatesWaiting(env, request.resourceToken, requirement)
  {
    RequestExactly(cfg, store, agentJwt, agentJkt, request, env);
    FreshCodeExactly(cfg, env, requirement);
    if Decides(agentJwt, agentJkt, request, env) {
      DecidedWait(cfg, store, ContextFor(cfg, agentJwt, request), agentJwt, env, location, requirement);
    }
  }

  /** ... with this record, and nothing else in the store changed. */
  lemma DeferredIsStored(
    cfg: PersonConfig, store: Store, agentJwt: Jwt, agentJkt: Thumb, request: ExchangeRequest, env: Env, location: string, requirement: Requirement)
    requires Requested(cfg, store, agentJwt, agentJkt, request, env).1 == Ok(Deferred(location, requirement))
    ensures RequestOk(agentJwt, agentJkt, request, env)
    ensures var store' := Requested(cfg, store, agentJwt, agentJkt, request, env).0;
            && env.freshId in store' && store' == store[env.freshId := store'[env.freshId]]
            && Opened(cfg, agentJwt, request, env, requirement, store'[env.freshId])
  {
    RequestExactly(cfg, store, agentJwt, agentJkt, request, env);
    if AsksInteraction(request) {
      CodeIsStored(cfg, store, agentJwt, request, env);
    } else {
      DecisionIsStored(cfg, store, agentJwt, request, env, location, requirement);
    }
  }

  lemma CodeIsStored(cfg: PersonConfig, store: Store, agentJwt: Jwt, request: ExchangeRequest, env: Env)
    requires agentJwt.AgentJwt? && AsksInteraction(request)
    ensures var (store', reply) := Exchanged(cfg, store, ContextFor(cfg, agentJwt, request), agentJwt, env);
            && reply.Ok? && reply.value.Deferred?
            && env.freshId in store' && store' == store[env.freshId := store'[env.freshId]]
            && Opened(cfg, agentJwt, request, env, reply.value.requirement, store'[env.freshId])
  {
    CodeShape(Value(256, env.codeBytes));
    CodeRespellsItself(CodeOfBytes(env.codeBytes));
  }

  lemma DecisionIsStored(
    cfg: PersonConfig, store: Store, agentJwt: Jwt, request: ExchangeRequest, env: Env, location: string, requirement: Requirement)
    requires agentJwt.AgentJwt? && request.resourceToken.ResourceJwt? && !AsksInteraction(request)
    requires Exchanged(cfg, store, ContextFor(cfg, agentJwt, request), agentJwt, env).1 == Ok(Deferred(location, requirement))
    ensures var store' := Exchanged(cfg, store, ContextFor(cfg, agentJwt, request), agentJwt, env).0;
            && env.freshId in store' && store' == store[env.freshId := store'[env.freshId]]
            && Opened(cfg, agentJwt, request, env, requirement, store'[env.freshId])
  {
    if env.decision == Some(Federate) {
      FederationExactly(cfg, env, request.resourceToken, agentJwt);
    }
  }

  /** Every other reply leaves the store alone. */
  lemma RequestRefused(cfg: PersonConfig, store: Store, agentJwt: Jwt, agentJkt: Thumb, request: ExchangeRequest, env: Env, error: ProtocolError)
    ensures var (store', reply) := Requested(cfg, store, agentJwt, agentJkt, request, env);
            && (!(reply.Ok? && reply.value.Deferred?) ==> store' == store)
            && (reply == Ok(Denied(error)) <==> Decides(agentJwt, agentJkt, request, env) && env.decision == Some(Deny(error)))
            && (reply == Ok(Unauthorized) <==>
                  !RequestOk(agentJwt, agentJkt, request, env)
                  || (!AsksInteraction(request) && FederationFails(cfg, env, request.resourceToken, agentJwt)))
            && (reply.Err? <==> Decides(agentJwt, agentJkt, request, env)
                                && (env.decision.None? || (env.decision.value.Grant? && env.jti.None?)))
  {
    RequestExactly(cfg, store, agentJwt, agentJkt, request, env);
    if Decides(agentJwt, agentJkt, request, env) {
      DecidedOtherwise(cfg, store, ContextFor(cfg, agentJwt, request), agentJwt, env, error);
    }
  }

  // ----- a call about a pending request -----

  lemma PendingToken(cfg: PersonConfig, store: Store, id: string, ctx: TokenContext, agentJwt: Jwt, env: Env, body: TokenResponse)
    requires id in store
    ensures Decided(cfg, store, id, ctx, agentJwt, env).1 == Ok(Granted(body))
            <==> DecidesToken(cfg, env, ctx.agentClaims, ctx.request.resourceToken, agentJwt, body)
  {
    if env.decision == Some(Federate) {
      FederationExactly(cfg, env, ctx.request.resourceToken, agentJwt);
    }
  }

  lemma PendingWait(
    cfg: PersonConfig, store: Store, id: string, ctx: TokenContext, agentJwt: Jwt, env: Env, location: string, requirement: Requirement)
    requires id in store
    ensures Decided(cfg, store, id, ctx, agentJwt, env).1 == Ok(Deferred(location, requirement)) <==>
              && location == PendingUrl(cfg.pendingBaseUrl, cfg.pendingPath, id)
              && (env.decision == Some(Defer(requirement)) || FederatesWaiting(env, ctx.request.resourceToken, requirement))
  {
    if env.decision == Some(Federate) {
      FederationExactly(cfg, env, ctx.request.resourceToken, agentJwt);
    }
  }

  lemma PendingOtherwise(cfg: PersonConfig, store: Store, id: string, ctx: TokenContext, agentJwt: Jwt, env: Env, error: ProtocolError)
    requires id in store
    ensures var reply := Decided(cfg, store, id, ctx, agentJwt, env).1;
            && (reply == Ok(Denied(error)) <==> env.decision == Some(Deny(error)))
            && (reply == Ok(Unauthorized) <==> FederationFails(cfg, env, ctx.request.resourceToken, agentJwt))
            && (reply.Err? <==> env.decision.None? || (env.decision.value.Grant? && env.jti.None?))
            && reply != Ok(Gone) && reply != Ok(BadGateway)
  {
    if env.decision == Some(Federate) {
      FederationExactly(cfg, env, ctx.request.resourceToken, agentJwt);
    }
  }

  /** The replies of a decision on a pending request. */
  lemma DecisionAnswers(
    cfg: PersonConfig, store: Store, id: string, ctx: TokenContext, agentJwt: Jwt, env: Env,
    body: TokenResponse, error: ProtocolError, location: string, requirement: Requirement)
    requires id in store
    ensures var reply := Decided(cfg, store, id, ctx, agentJwt, env).1;
            && (reply == Ok(Granted(body)) <==> DecidesToken(cfg, env, ctx.agentClaims, ctx.request.resourceToken, agentJwt, body))
            && (reply == Ok(Denied(error)) <==> env.decision == Some(Deny(error)))
            && (reply == Ok(Deferred(location, requirement)) <==>
                  && location == PendingUrl(cfg.pendingBaseUrl, cfg.pendingPath, id)
                  && (env.decision == Some(Defer(requirement)) || FederatesWaiting(env, ctx.request.resourceToken, requirement)))
            && (reply == Ok(Unauthorized) <==> FederationFails(cfg, env, ctx.request.resourceToken, agentJwt))
            && (reply.Err? <==> env.decision.None? || (env.decision.value.Grant? && env.jti.None?))
            && reply != Ok(Gone) && reply != Ok(BadGateway)
  {
    PendingToken(cfg, store, id, ctx, agentJwt, env, body);
    PendingWait(cfg, store, id, ctx, agentJwt, env, location, requirement);
    PendingOtherwise(cfg, store, id, ctx, agentJwt, env, error);
  }

  /** Whether the request moves to an Access Server. */
  predicate Moves(env: Env, resourceToken: Jwt) {
    Federates(env, resourceToken) && env.asExchange.Some? && env.asExchange.value.AsDeferred?
  }

  /** What a decision leaves: the record with its own context, or with one that has lost its code and belongs to an Access Server. */
  predicate LeftBy(env: Env, ctx: TokenContext, before: Record<PersonContext>, after: Record<PersonContext>) {
    && after.id == before.id && after.createdAt == before.createdAt && after.expiresAt == before.expiresAt
    && if !Moves(env, ctx.request.resourceToken) then after.context == before.context
       else
         && after.context.agentToken == before.context.agentToken && ContextOf(after.context) == ctx
         && after.context.code.None? && after.context.resourceInteraction.None? && !after.context.codeConsumed
         && after.context.federation
            == Some(Federation(TrimSlash(ctx.request.resourceToken.resourceClaims.aud), env.asExchange.value.asPendingUrl))
  }

  /** Only the record at hand is rewritten. */
  predicate RewritesOnly(store: Store, store': Store, id: string) {
    id in store' && store' == store[id := store'[id]]
  }

  lemma DecisionLeaves(cfg: PersonConfig, store: Store, id: string, ctx: TokenContext, env: Env)
    requires id in store
    ensures var store' := Decided(cfg, store, id, ctx, store[id].context.agentToken, env).0;
            RewritesOnly(store, store', id) && LeftBy(env, ctx, store[id], store'[id])
  {
    if env.decision == Some(Federate) {
      FederationExactly(cfg, env, ctx.request.resourceToken, store[id].context.agentToken);
    }
    var store' := Decided(cfg, store, id, ctx, store[id].context.agentToken, env).0;
    assert store == store[id := store[id]];
  }

  /** The record can still be worked on, and it is the policy's. */
  predicate IsPolicys(store: Store, id: string, now: nat) {
    id in store && now <= store[id].expiresAt && store[id].context.federation.None?
  }

  /** An unknown or expired request is gone, whoever calls; an unfederated one goes to the policy. */
  lemma ResumeExactly(cfg: PersonConfig, store: Store, id: string, input: PendingInput, env: Env)
    ensures id !in store || env.now > store[id].expiresAt ==> Resumed(cfg, store, id, input, env) == (store - {id}, Ok(Gone))
    ensures IsPolicys(store, id, env.now) ==>
              Resumed(cfg, store, id, input, env) == Decided(cfg, store, id, ContextOf(store[id].context), store[id].context.agentToken, env)
  {
    if id !in store {
      assert store - {id} == store;
    }
  }

  /** The interaction no longer matters to a decision taken after it. */
  function WithoutInteraction(ctx: TokenContext): (r: TokenContext) {
    ctx.(resourceClaims := ctx.resourceClaims.(interaction := None))
  }

  lemma CallbackExactly(cfg: PersonConfig, store: Store, id: string, error: Option<string>, env: Env)
    ensures id !in store || env.now > store[id].expiresAt ==> CalledBack(cfg, store, id, error, env) == (store - {id}, Ok(Gone))
    ensures id in store && env.now <= store[id].expiresAt && error.Some? ==>
              var denial := ProtocolError(MapCallbackError(error.value).code, error);
              CalledBack(cfg, store, id, error, env)
              == (store[id := store[id].(snapshot := Complete(Failed(denial)))], Ok(Denied(denial)))
    ensures id in store && env.now <= store[id].expiresAt && error.None? && store[id].context.federation.Some? ==>
              CalledBack(cfg, store, id, error, env) == (store, Ok(BadGateway))
    ensures IsPolicys(store, id, env.now) && error.None? ==>
              CalledBack(cfg, store, id, error, env)
              == Decided(cfg, store, id, WithoutInteraction(ContextOf(store[id].context)), store[id].context.agentToken, env)
  {
    if id !in store {
      assert store - {id} == store;
    }
  }

  /** The code of an interaction that ended in an error. */
  lemma CallbackErrorExactly(error: string)
    ensures var code := MapCallbackError(error).code;
            && (code == DeniedCode <==> error == "access_denied")
            && (code == AbandonedCode <==> error == "user_abandoned")
            && (code == ExpiredCode <==> error == "interaction_expired")
            && (code == ServerErrorCode <==> error == "server_error" || error == "temporarily_unavailable")
            && (error !in {"access_denied", "user_abandoned", "interaction_expired", "server_error", "temporarily_unavailable"} ==>
                  code == CustomCode(error))
  {
  }

  /** The Access Server's answer to relayed input, at once or when it is polled. */
  predicate Hears(env: Env, answer: AsPoll) {
    && env.asResume.Some?
    && match env.asResume.value
       case Some(body) => answer == AsToken(body)
       case None => env.asPoll == Some(answer)
  }

  /** The request is federated, and can still be worked on. */
  predicate IsAccessServers(store: Store, id: string, now: nat) {
    id in store && now <= store[id].expiresAt && store[id].context.federation.Some?
  }

  /** The Access Server's token passes. */
  predicate Passes(cfg: PersonConfig, c: PersonContext, env: Env, body: TokenResponse)
    requires c.federation.Some?
  {
    FederatedTokenOk(body.authToken, c.federation.value.accessServerUrl, cfg.resourceUrl, c.agentToken, env.trust, env.now)
  }

  lemma RelayedBody(
    cfg: PersonConfig, store: Store, id: string, federation: Federation, agentToken: Jwt, input: PendingInput, env: Env, body: TokenResponse)
    ensures var reply := Relayed(cfg, store, id, federation, agentToken, input, env).1;
            var passes := VerifyFederatedAuthToken(body.authToken, federation.accessServerUrl, cfg.resourceUrl, agentToken, env.trust, env.now).None?;
            && (reply == Ok(Granted(body)) <==> !input.Cancelled? && Hears(env, AsToken(body)) && passes)
            && (!input.Cancelled? && Hears(env, AsToken(body)) && !passes ==> reply == Ok(Unauthorized))
  {
  }

  lemma ResumeRelays(cfg: PersonConfig, store: Store, id: string, input: PendingInput, env: Env)
    requires IsAccessServers(store, id, env.now)
    ensures var c := store[id].context;
            Resumed(cfg, store, id, input, env) == Relayed(cfg, store, id, c.federation.value, c.agentToken, input, env)
  {
  }

  lemma RelayedToken(cfg: PersonConfig, store: Store, id: string, input: PendingInput, env: Env, body: TokenResponse)
    requires IsAccessServers(store, id, env.now)
    ensures var (reply, passes) := (Resumed(cfg, store, id, input, env).1, Passes(cfg, store[id].context, env, body));
            && (reply == Ok(Granted(body)) <==> !input.Cancelled? && Hears(env, AsToken(body)) && passes)
            && (!input.Cancelled? && Hears(env, AsToken(body)) && !passes ==> reply == Ok(Unauthorized))
  {
    var c := store[id].context;
    ResumeRelays(cfg, store, id, input, env);
    RelayedBody(cfg, store, id, c.federation.value, c.agentToken, input, env, body);
    FederatedExactly(body.authToken, c.federation.value.accessServerUrl, cfg.resourceUrl, c.agentToken, env.trust, env.now);
  }

  lemma RelayedOtherwise(cfg: PersonConfig, store: Store, id: string, input: PendingInput, env: Env, error: ProtocolError)
    requires IsAccessServers(store, id, env.now)
    ensures var reply := Resumed(cfg, store, id, input, env).1;
            && (reply == Ok(Denied(error)) <==>
                  if input.Cancelled? then error == ProtocolError(AccessDeniedCode, Some("Request cancelled")) else Hears(env, AsError(error)))
            && (reply == Ok(Gone) <==> !input.Cancelled? && Hears(env, AsGone))
            && (reply == Ok(BadGateway) <==> !input.Cancelled? && (env.asResume.None? || (env.asResume.value.None? && env.asPoll.None?)))
  {
  }

  lemma RelayedWait(cfg: PersonConfig, store: Store, id: string, input: PendingInput, env: Env, requirement: Requirement)
    requires IsAccessServers(store, id, env.now)
    ensures Resumed(cfg, store, id, input, env).1 == Ok(Deferred(PendingUrl(cfg.pendingBaseUrl, cfg.pendingPath, id), requirement))
            <==> !input.Cancelled? && exists url :: Hears(env, AsWaiting(requirement, url))
  {
    if env.asResume == Some(None) && env.asPoll.Some? && env.asPoll.value.AsWaiting? {
      assert Hears(env, AsWaiting(env.asPoll.value.requirement, env.asPoll.value.locationUrl));
    }
  }

  /** The agent's input goes to the Access Server, whose answer is the reply; a cancellation stops here. */
  lemma RelayAnswers(
    cfg: PersonConfig, store: Store, id: string, input: PendingInput, env: Env, body: TokenResponse, error: ProtocolError, requirement: Requirement)
    requires IsAccessServers(store, id, env.now)
    ensures var (reply, passes) := (Resumed(cfg, store, id, input, env).1, Passes(cfg, store[id].context, env, body));
            && (reply == Ok(Granted(body)) <==> !input.Cancelled? && Hears(env, AsToken(body)) && passes)
            && (!input.Cancelled? && Hears(env, AsToken(body)) && !passes ==> reply == Ok(Unauthorized))
            && (reply == Ok(Denied(error)) <==>
                  if input.Cancelled? then error == ProtocolError(AccessDeniedCode, Some("Request cancelled")) else Hears(env, AsError(error)))
            && (reply == Ok(Gone) <==> !input.Cancelled? && Hears(env, AsGone))
            && (reply == Ok(BadGateway) <==> !input.Cancelled? && (env.asResume.None? || (env.asResume.value.None? && env.asPoll.None?)))
            && (reply == Ok(Deferred(PendingUrl(cfg.pendingBaseUrl, cfg.pendingPath, id), requirement)) <==>
                  !input.Cancelled? && exists url :: Hears(env, AsWaiting(requirement, url)))
  {
    RelayedToken(cfg, store, id, input, env, body);
    RelayedOtherwise(cfg, store, id, input, env, error);
    RelayedWait(cfg, store, id, input, env, requirement);
  }

  /** What a relay leaves: nothing when the request is gone there too, otherwise the record, which stays with its Access Server. */
  lemma RelayLeaves(cfg: PersonConfig, store: Store, id: string, input: PendingInput, env: Env)
    requires IsAccessServers(store, id, env.now)
    ensures var (store', reply) := Resumed(cfg, store, id, input, env);
            if reply == Ok(Gone) then store' == store - {id}
            else
              && RewritesOnly(store, store', id)
              && store'[id] == store[id].(snapshot := store'[id].snapshot, context := store'[id].context)
              && store'[id].context.(federation := None) == store[id].context.(federation := None)
              && store'[id].context.federation.Some?
              && store'[id].context.federation.value.accessServerUrl == store[id].context.federation.value.accessServerUrl
              && (!input.Cancelled? && env.asResume == Some(None) && env.asPoll.Some? && env.asPoll.value.AsWaiting? ==>
                    store'[id].context.federation.value.asPendingUrl == env.asPoll.value.locationUrl)
  {
    assert store == store[id := store[id]];
  }

  // ----- a lookup -----

  /** The record after its code was used: consumed, and its request no longer merely pending. */
  predicate UsedUp(before: Record<PersonContext>, after: Record<PersonContext>) {
    && after.context == before.context.(codeConsumed := true)
    && after == before.(context := after.context, snapshot := after.snapshot)
    && match before.snapshot
       case Waiting(_, requirement) => after.snapshot == Waiting(Interacting, requirement)
       case Complete(outcome) => after.snapshot == Complete(outcome)
  }

  /** A lookup that finds a record uses its code up and sends the person to the resource's page; it forgets a record that has expired. One that finds none changes nothing. */
  lemma LookupExactly(cfg: PersonConfig, store: Store, id: string, env: Env)
    requires id in store
    ensures Begun(cfg, store, None, env) == (store, Ok(InvalidCode))
    ensures var (store', reply) := Begun(cfg, store, Some(id), env);
            if env.now > store[id].expiresAt then store' == store - {id} && reply == Ok(ExpiredRequest)
            else
              && RewritesOnly(store, store', id) && UsedUp(store[id], store'[id])
              && (store[id].context.resourceInteraction.Some? ==>
                    reply == match env.redirect(store[id].context.resourceInteraction.value, TrimSlash(cfg.interactionUrl) + "/callback?id=" + id)
                             case None => Err(InvalidInteractionUrl)
                             case Some(url) => Ok(Redirect(url)))
  {
  }

  /** No two pending requests share a location or a callback address. */
  lemma AddressesDiffer(cfg: PersonConfig, a: string, b: string)
    ensures PendingLocation(cfg, a) == PendingLocation(cfg, b) ==> a == b
    ensures CallbackUrl(cfg, a) == CallbackUrl(cfg, b) ==> a == b
  {
    SameSuffix(TrimSlash(cfg.pendingBaseUrl) + "/" + TrimStartChar(cfg.pendingPath, '/') + "/", a, b);
    SameSuffix(TrimSlash(cfg.interactionUrl) + "/callback?id=", a, b);
  }

  lemma SameSuffix(p: string, a: string, b: string)
    ensures p + a == p + b ==> a == b
  {
    assert (p + a)[|p|..] == a && (p + b)[|p|..] == b;
  }

  /** A poll reports what is stored until the request expires, and then forgets it. */
  lemma PollExactly(store: Store, id: string, now: nat)
    ensures var (store', outcome) := Polled(store, id, now);
            if id in store && now <= store[id].expiresAt then
              && store' == store
              && outcome == match store[id].snapshot
                            case Waiting(status, requirement) => StillPending(status, requirement)
                            case Complete(result) => Finished(result)
            else store' == store - {id} && outcome == PollGone
  {
    if id !in store {
      assert store - {id} == store;
    }
  }
}
