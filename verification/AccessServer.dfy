/**
 The Access Server's token service: the same pending store under a simpler machine, one
 policy and no second server behind it.
 */
module AccessServer {
  import opened Prelude
  import opened Tokens
  import opened Deferral
  import opened PendingStore

  datatype AccessConfig = AccessConfig(
    accessServerUrl: string, resourceUrl: string, personServerUrl: string,
    pendingBaseUrl: string, pendingPath: string, ttl: nat, key: Jwk, kid: Option<string>)

  datatype AccessContext = AccessContext(
    accessServerUrl: string, resourceUrl: string, personServerUrl: string,
    agentClaims: AgentClaims, resourceClaims: ResourceClaims, resourceToken: Jwt, agentToken: Jwt)

  type Store = Records<AccessContext>

  datatype Decision = Grant(sub: string, scope: Option<string>) | Deny(error: ProtocolError) | Defer(requirement: Requirement)

  datatype Reply = Granted(body: TokenResponse) | Deferred(location: string, requirement: Requirement) | Denied(error: ProtocolError) | Gone

  /** What one call learns from outside; None stands for an error, which ends the call. */
  datatype Env = Env(now: nat, freshId: string, decision: Option<Decision>, jti: Option<string>)

  function FromExchange(cfg: AccessConfig, agentToken: Jwt, resourceToken: Jwt): (r: Option<AccessContext>) {
    match (Parse(agentToken), Parse(resourceToken))
    case (Ok(Agent(agent)), Ok(Resource(claims))) =>
      Some(AccessContext(cfg.accessServerUrl, cfg.resourceUrl, cfg.personServerUrl, agent, claims, resourceToken, agentToken))
    case _ => None
  }

  /** The grant's scope, or else the one the resource asked for. */
  function MintAccessAuth(cfg: AccessConfig, ctx: AccessContext, sub: string, scope: Option<string>, now: int, jti: string): (r: TokenResponse) {
    TokenResponse(
      EncodeAuthJwt(cfg.key, cfg.kid, "aauth-access.json", cfg.accessServerUrl, cfg.resourceUrl,
                    ctx.agentClaims.sub, ctx.agentClaims.cnf, Some(sub),
                    if scope.Some? then scope else ctx.resourceClaims.scope, now, jti),
      3600)
  }

  function Location(cfg: AccessConfig, id: string): (r: string) {
    PendingUrl(cfg.pendingBaseUrl, cfg.pendingPath, id)
  }

  function Exchanged(cfg: AccessConfig, store: Store, ctx: AccessContext, env: Env): (r: (Store, Option<Reply>)) {
    match env.decision
    case None => (store, None)
    case Some(Grant(sub, scope)) =>
      (store, if env.jti.Some? then Some(Granted(MintAccessAuth(cfg, ctx, sub, scope, env.now, env.jti.value))) else None)
    case Some(Deny(error)) => (store, Some(Denied(error)))
    case Some(Defer(requirement)) =>
      (store[env.freshId := NewRecord(env.freshId, ctx, Waiting(Pending, requirement), cfg.ttl, env.now)],
       Some(Deferred(Location(cfg, env.freshId), requirement)))
  }

  function Resumed(cfg: AccessConfig, store: Store, id: string, env: Env): (r: (Store, Option<Reply>)) {
    if id !in store then (store, Some(Gone))
    else if IsExpired(store[id], env.now) then (Removed(store, id), Some(Gone))
    else
      match env.decision
      case None => (store, None)
      case Some(Grant(sub, scope)) =>
        if env.jti.None? then (store, None)
        else
          var body := MintAccessAuth(cfg, store[id].context, sub, scope, env.now, env.jti.value);
          (Completed(store, id, AuthToken(body)), Some(Granted(body)))
      case Some(Deny(error)) => (Completed(store, id, Failed(error)), Some(Denied(error)))
      case Some(Defer(requirement)) =>
        (store[id := store[id].(snapshot := Waiting(Pending, requirement))], Some(Deferred(Location(cfg, id), requirement)))
  }

  class PolicyAccessTokenService {
    const config: AccessConfig
    const pending: InMemoryPendingStore<AccessContext>

    constructor (config: AccessConfig, pending: InMemoryPendingStore<AccessContext>)
      ensures this.config == config && this.pending == pending
    {
      this.config, this.pending := config, pending;
    }

    method ExchangeToken(ctx: AccessContext, env: Env) returns (reply: Option<Reply>)
      modifies pending
      ensures (pending.records, reply) == Exchanged(config, old(pending.records), ctx, env)
    {
      if env.decision.None? {
        return None;
      }
      match env.decision.value
      case Grant(sub, scope) =>
        if env.jti.None? {
          return None;
        }
        reply := Some(Granted(MintAccessAuth(config, ctx, sub, scope, env.now, env.jti.value)));
      case Deny(error) =>
        reply := Some(Denied(error));
      case Defer(requirement) =>
        var id := pending.Create(NewRecord(env.freshId, ctx, Waiting(Pending, requirement), config.ttl, env.now));
        reply := Some(Deferred(Location(config, id), requirement));
    }

    method Poll(id: string, now: nat) returns (outcome: PollOutcome)
      modifies pending
      ensures (pending.records, outcome) == Polled(old(pending.records), id, now)
    {
      outcome := PollAuthPending(pending, id, now);
    }

    method UpdatePendingDefer(id: string, requirement: Requirement) returns (reply: Reply)
      modifies pending
      ensures id in old(pending.records) ==>
                && pending.records == old(pending.records)[id := old(pending.records)[id].(snapshot := Waiting(Pending, requirement))]
                && reply == Deferred(Location(config, id), requirement)
      ensures id !in old(pending.records) ==> pending.records == old(pending.records) && reply == Gone
    {
      var found := pending.Load(id);
      if found.None? {
        return Gone;
      }
      var record := found.value.(snapshot := Waiting(Pending, requirement));
      pending.Save(id, record);
      reply := Deferred(Location(config, id), requirement);
    }

    method ResumePending(id: string, env: Env) returns (reply: Option<Reply>)
      modifies pending
      ensures (pending.records, reply) == Resumed(config, old(pending.records), id, env)
    {
      var found := pending.Load(id);
      if found.None? {
        return Some(Gone);
      }
      if IsExpired(found.value, env.now) {
        pending.Remove(id);
        return Some(Gone);
      }
      if env.decision.None? {
        return None;
      }
      match env.decision.value
      case Grant(sub, scope) =>
        if env.jti.None? {
          return None;
        }
        var body := MintAccessAuth(config, found.value.context, sub, scope, env.now, env.jti.value);
        pending.CompleteWith(id, AuthToken(body));
        reply := Some(Granted(body));
      case Deny(error) =>
        pending.CompleteWith(id, Failed(error));
        reply := Some(Denied(error));
      case Defer(requirement) =>
        var deferred := UpdatePendingDefer(id, requirement);
        reply := Some(deferred);
    }
  }

  // ----- every run -----

  datatype Event =
    | ExchangeEvent(agentToken: Jwt, resourceToken: Jwt, env: Env)
    | PollEvent(id: string, now: nat)
    | ResumeEvent(id: string, env: Env)

  /** The request that opened each id. */
  datatype Opening = Opening(agentToken: Jwt, resourceToken: Jwt, expiresAt: nat)

  datatype World = World(store: Store, openings: map<string, Opening>)

  predicate ValidEvent(w: World, ev: Event) {
    ev.ExchangeEvent? ==> ev.env.freshId !in w.openings
  }

  function ReplyOf(cfg: AccessConfig, w: World, ev: Event): (r: (Store, Option<Reply>)) {
    match ev
    case ExchangeEvent(agentToken, resourceToken, env) =>
      (match FromExchange(cfg, agentToken, resourceToken)
       case None => (w.store, None)
       case Some(ctx) => Exchanged(cfg, w.store, ctx, env))
    case PollEvent(id, now) => (Polled(w.store, id, now).0, None)
    case ResumeEvent(id, env) => Resumed(cfg, w.store, id, env)
  }

  function Next(cfg: AccessConfig, w: World, ev: Event): (r: World) {
    var store := ReplyOf(cfg, w, ev).0;
    if ev.ExchangeEvent? && ev.env.freshId in store then
      World(store, w.openings[ev.env.freshId := Opening(ev.agentToken, ev.resourceToken, store[ev.env.freshId].expiresAt)])
    else World(store, w.openings)
  }

  predicate ValidRun(cfg: AccessConfig, evs: seq<Event>)
    decreases |evs|, 0
  {
    evs == [] || (ValidRun(cfg, evs[..|evs| - 1]) && ValidEvent(Run(cfg, evs[..|evs| - 1]), evs[|evs| - 1]))
  }

  function Run(cfg: AccessConfig, evs: seq<Event>): (r: World)
    requires ValidRun(cfg, evs)
    decreases |evs|, 1
  {
    if evs == [] then World(map[], map[]) else Next(cfg, Run(cfg, evs[..|evs| - 1]), evs[|evs| - 1])
  }

  /** The token is this server's, for its resource, and names the agent and key of `agentToken`. */
  predicate Names(cfg: AccessConfig, token: Jwt, agentToken: Jwt) {
    && Parse(token).Ok? && Parse(token).value.Auth? && Parse(agentToken).Ok? && Parse(agentToken).value.Agent?
    && var (auth, agent) := (Parse(token).value.auth, Parse(agentToken).value.agent);
    && auth.agent == agent.sub && auth.cnf == agent.cnf
    && auth.iss == cfg.accessServerUrl && auth.aud == cfg.resourceUrl
  }

  predicate RecordOk(cfg: AccessConfig, id: string, record: Record<AccessContext>, o: Opening) {
    && record.id == id && record.expiresAt == o.expiresAt
    && FromExchange(cfg, o.agentToken, o.resourceToken) == Some(record.context)
    && match record.snapshot
       case Waiting(_, _) => true
       case Complete(AuthToken(body)) => Names(cfg, body.authToken, o.agentToken)
       case Complete(Failed(_)) => true
       case Complete(OpaqueAccess(_)) => false
  }

  ghost predicate Inv(cfg: AccessConfig, w: World) {
    forall id :: id in w.store ==> id in w.openings && RecordOk(cfg, id, w.store[id], w.openings[id])
  }

  /** Whoever is given a token is the agent whose request it answers. */
  predicate GivenOk(cfg: AccessConfig, w: World, ev: Event) {
    var reply := ReplyOf(cfg, w, ev).1;
    reply.Some? && reply.value.Granted? ==>
      match ev
      case ExchangeEvent(agentToken, _, _) => Names(cfg, reply.value.body.authToken, agentToken)
      case ResumeEvent(id, _) => id in w.openings && Names(cfg, reply.value.body.authToken, w.openings[id].agentToken)
      case PollEvent(_, _) => false
  }

  lemma MintedNames(cfg: AccessConfig, agentToken: Jwt, resourceToken: Jwt, sub: string, scope: Option<string>, now: int, jti: string)
    requires FromExchange(cfg, agentToken, resourceToken).Some?
    ensures Names(cfg, MintAccessAuth(cfg, FromExchange(cfg, agentToken, resourceToken).value, sub, scope, now, jti).authToken, agentToken)
  {
  }

  lemma ExchangeStep(cfg: AccessConfig, w: World, ev: Event)
    requires Inv(cfg, w) && ValidEvent(w, ev) && ev.ExchangeEvent?
    ensures Inv(cfg, Next(cfg, w, ev)) && GivenOk(cfg, w, ev)
  {
    if FromExchange(cfg, ev.agentToken, ev.resourceToken).Some? && ev.env.decision.Some? && ev.env.decision.value.Grant? && ev.env.jti.Some? {
      MintedNames(cfg, ev.agentToken, ev.resourceToken, ev.env.decision.value.sub, ev.env.decision.value.scope, ev.env.now, ev.env.jti.value);
    }
  }

  lemma ResumeStep(cfg: AccessConfig, w: World, ev: Event)
    requires Inv(cfg, w) && ev.ResumeEvent?
    ensures Inv(cfg, Next(cfg, w, ev)) && GivenOk(cfg, w, ev)
  {
    if ev.id in w.store && ev.env.decision.Some? && ev.env.decision.value.Grant? && ev.env.jti.Some? {
      var o := w.openings[ev.id];
      MintedNames(cfg, o.agentToken, o.resourceToken, ev.env.decision.value.sub, ev.env.decision.value.scope, ev.env.now, ev.env.jti.value);
    }
  }

  lemma StepKeepsInv(cfg: AccessConfig, w: World, ev: Event)
    requires Inv(cfg, w) && ValidEvent(w, ev)
    ensures Inv(cfg, Next(cfg, w, ev)) && GivenOk(cfg, w, ev)
  {
    match ev
    case ExchangeEvent(_, _, _) => ExchangeStep(cfg, w, ev);
    case PollEvent(_, _) =>
    case ResumeEvent(_, _) => ResumeStep(cfg, w, ev);
  }

  /** Token provenance at the Access Server, over every run. */
  lemma {:induction false} TokensNameTheirOpener(cfg: AccessConfig, evs: seq<Event>)
    requires ValidRun(cfg, evs)
    ensures Inv(cfg, Run(cfg, evs))
    ensures evs != [] ==> GivenOk(cfg, Run(cfg, evs[..|evs| - 1]), evs[|evs| - 1])
  {
    if evs != [] {
      TokensNameTheirOpener(cfg, evs[..|evs| - 1]);
      StepKeepsInv(cfg, Run(cfg, evs[..|evs| - 1]), evs[|evs| - 1]);
    }
  }

  // ----- exactly what is answered -----

  /** The token of a grant: from this server, for its resource, for one hour, bound to the agent and its key; the scope is the grant's, or else the one the resource asked for. */
  predicate GrantBody(cfg: AccessConfig, env: Env, agent: AgentClaims, asked: Option<string>, body: TokenResponse) {
    && env.decision.Some? && env.decision.value.Grant? && env.jti.Some?
    && body == TokenResponse(
                 AuthJwt(cfg.kid,
                         AuthClaims(iss := cfg.accessServerUrl, dwk := "aauth-access.json", aud := cfg.resourceUrl, jti := env.jti.value,
                                    agent := agent.sub, act := None, cnf := agent.cnf, iat := env.now, exp := env.now + 3600,
                                    sub := Some(env.decision.value.sub),
                                    scope := if env.decision.value.scope.Some? then env.decision.value.scope else asked),
                         cfg.key),
                 3600)
  }

  /** The answers of the policy, to a request or to a pending one; the location is that of the request. */
  predicate PolicyAnswers(cfg: AccessConfig, env: Env, c: AccessContext, id: string, reply: Option<Reply>) {
    match reply
    case None => env.decision.None? || (env.decision.value.Grant? && env.jti.None?)
    case Some(Granted(body)) => GrantBody(cfg, env, c.agentClaims, c.resourceClaims.scope, body)
    case Some(Denied(error)) => env.decision == Some(Deny(error))
    case Some(Deferred(location, requirement)) =>
      env.decision == Some(Defer(requirement)) && location == PendingUrl(cfg.pendingBaseUrl, cfg.pendingPath, id)
    case Some(Gone) => false
  }

  /** An exchange stores exactly what it defers, and answers as the policy says. */
  lemma ExchangeAnswers(cfg: AccessConfig, store: Store, ctx: AccessContext, env: Env, reply: Option<Reply>)
    ensures Exchanged(cfg, store, ctx, env).1 == reply <==> PolicyAnswers(cfg, env, ctx, env.freshId, reply)
    ensures var (store', r) := Exchanged(cfg, store, ctx, env);
            store' == if r.Some? && r.value.Deferred? then
                        store[env.freshId := Record(env.freshId, env.now, env.now + cfg.ttl, ctx, Waiting(Pending, r.value.requirement))]
                      else store
  {
  }

  /** What a poll will report for a reply. */
  predicate Reported(snapshot: Snapshot, reply: Reply) {
    match reply
    case Granted(body) => snapshot == Complete(AuthToken(body))
    case Denied(error) => snapshot == Complete(Failed(error))
    case Deferred(_, requirement) => snapshot == Waiting(Pending, requirement)
    case Gone => false
  }

  /** A resume answers as the policy says about the request as it was made; the next poll agrees, and nothing else changes. */
  lemma ResumeAnswers(cfg: AccessConfig, store: Store, id: string, env: Env, reply: Option<Reply>)
    ensures id !in store || env.now > store[id].expiresAt ==> Resumed(cfg, store, id, env) == (store - {id}, Some(Gone))
    ensures id in store && env.now <= store[id].expiresAt ==>
              && (Resumed(cfg, store, id, env).1 == reply <==> PolicyAnswers(cfg, env, store[id].context, id, reply))
              && var (store', r) := Resumed(cfg, store, id, env);
                 if r.None? then store' == store
                 else
                   && id in store' && store' == store[id := store[id].(snapshot := store'[id].snapshot)]
                   && Reported(store'[id].snapshot, r.value)
  {
    if id !in store {
      assert store - {id} == store;
    }
  }
}
