/**
 What holds over whole runs of the Person Server's token service.

 A run is a sequence of calls, each with whatever its environment answered. Next to the
 store, a world remembers how every pending id was opened, and counts the codes that were
 handed out and the lookups that found one.
 */
module PersonRuns {
  import opened Prelude
  import opened Text
  import opened Tokens
  import opened Deferral
  import opened PendingStore
  import opened InteractionCode
  import opened PersonServer

  datatype Event =
    | TokenRequest(agentJwt: Jwt, agentJkt: Thumb, request: ExchangeRequest, env: Env)
    | PollEvent(id: string, now: nat)
    | Resume(id: string, input: PendingInput, env: Env)
    | Begin(code: string, found: Option<string>, env: Env)
    | Callback(id: string, error: Option<string>, env: Env)

  /** The request that opened a pending id. */
  datatype Opening = Opening(agentJwt: Jwt, resourceToken: Jwt, expiresAt: nat)

  datatype World = World(store: Store, openings: map<string, Opening>, created: multiset<string>, hits: multiset<string>)

  const START := World(map[], map[], multiset{}, multiset{})

  /** Ids are fresh, and a lookup returns a match when there is one. */
  predicate ValidEvent(w: World, ev: Event) {
    match ev
    case TokenRequest(_, _, _, env) => env.freshId !in w.openings
    case Begin(code, found, _) =>
      (match found
       case Some(id) => id in w.store && Matches(w.store[id], Canonicalize(code))
       case None => forall id :: id in w.store ==> !Matches(w.store[id], Canonicalize(code)))
    case _ => true
  }

  function StoreAfter(cfg: PersonConfig, w: World, ev: Event): (r: Store)
    requires ValidEvent(w, ev)
  {
    match ev
    case TokenRequest(agentJwt, agentJkt, request, env) => Requested(cfg, w.store, agentJwt, agentJkt, request, env).0
    case PollEvent(id, now) => Polled(w.store, id, now).0
    case Resume(id, input, env) => Resumed(cfg, w.store, id, input, env).0
    case Begin(_, found, env) => Begun(cfg, w.store, found, env).0
    case Callback(id, error, env) => CalledBack(cfg, w.store, id, error, env).0
  }

  function CodesOf(record: Record<PersonContext>): (r: multiset<string>) {
    if record.context.code.Some? then multiset{record.context.code.value} else multiset{}
  }

  function Next(cfg: PersonConfig, w: World, ev: Event): (r: World)
    requires ValidEvent(w, ev)
  {
    var store := StoreAfter(cfg, w, ev);
    match ev
    case TokenRequest(agentJwt, _, request, env) =>
      if env.freshId in store then
        World(store,
              w.openings[env.freshId := Opening(agentJwt, request.resourceToken, store[env.freshId].expiresAt)],
              w.created + CodesOf(store[env.freshId]), w.hits)
      else w.(store := store)
    case Begin(code, found, env) => LookedUp(cfg, w, found, Canonicalize(code), env)
    case _ => w.(store := store)
  }

  function LookedUp(cfg: PersonConfig, w: World, found: Option<string>, canonical: string, env: Env): (r: World)
    requires found.Some? ==> found.value in w.store
  {
    World(Begun(cfg, w.store, found, env).0, w.openings, w.created,
          if found.Some? then w.hits + multiset{canonical} else w.hits)
  }

  predicate ValidRun(cfg: PersonConfig, evs: seq<Event>)
    decreases |evs|, 0
  {
    evs == [] ||
    (ValidRun(cfg, evs[..|evs| - 1]) && ValidEvent(Run(cfg, evs[..|evs| - 1]), evs[|evs| - 1]))
  }

  function Run(cfg: PersonConfig, evs: seq<Event>): (r: World)
    requires ValidRun(cfg, evs)
    decreases |evs|, 1
  {
    if evs == [] then START else Next(cfg, Run(cfg, evs[..|evs| - 1]), evs[|evs| - 1])
  }

  // ----- the invariant -----

  /** The token names the agent and key that opened the request, for this server's resource. */
  predicate Names(cfg: PersonConfig, token: Jwt, o: Opening) {
    && Parse(token).Ok? && Parse(token).value.Auth?
    && Parse(o.agentJwt).Ok? && Parse(o.agentJwt).value.Agent?
    && Parse(o.resourceToken).Ok? && Parse(o.resourceToken).value.Resource?
    && var auth := Parse(token).value.auth;
       var agent := Parse(o.agentJwt).value.agent;
       var issuers := {TrimSlash(cfg.personServerUrl), TrimSlash(Parse(o.resourceToken).value.resource.aud)};
    && auth.agent == agent.sub
    && Thumbprint(auth.cnf) == Thumbprint(agent.cnf)
    && TrimSlash(auth.aud) == TrimSlash(cfg.resourceUrl)
    && TrimSlash(auth.iss) in issuers
  }

  /** A context still describes the request that opened it. */
  predicate Describes(c: TokenContext, agentToken: Jwt, o: Opening) {
    && agentToken == o.agentJwt
    && c.request.resourceToken == o.resourceToken
    && Parse(o.agentJwt) == Ok(Agent(c.agentClaims))
    && Parse(o.resourceToken).Ok? && Parse(o.resourceToken).value.Resource?
    && c.resourceClaims.(interaction := None) == Parse(o.resourceToken).value.resource.(interaction := None)
  }

  predicate FederationOk(c: PersonContext) {
    && (c.resourceInteraction.Some? <==> c.code.Some?)
    && (c.codeConsumed ==> c.code.Some?)
    && (c.federation.Some? ==>
          c.code.None? && c.federation.value.accessServerUrl == TrimSlash(c.resourceClaims.aud))
  }

  predicate SnapshotOk(cfg: PersonConfig, snapshot: Snapshot, o: Opening) {
    match snapshot
    case Waiting(_, _) => true
    case Complete(AuthToken(body)) => Names(cfg, body.authToken, o)
    case Complete(Failed(_)) => true
    case Complete(OpaqueAccess(_)) => false
  }

  predicate RecordOk(cfg: PersonConfig, id: string, record: Record<PersonContext>, o: Opening) {
    && record.id == id
    && record.expiresAt == o.expiresAt
    && Describes(ContextOf(record.context), record.context.agentToken, o)
    && FederationOk(record.context)
    && SnapshotOk(cfg, record.snapshot, o)
  }

  ghost predicate Inv(cfg: PersonConfig, w: World) {
    forall id :: id in w.store ==> id in w.openings && RecordOk(cfg, id, w.store[id], w.openings[id])
  }

  // ----- tokens that reach a reply or the store -----

  lemma MintedNames(cfg: PersonConfig, env: Env, sub: string, scope: Option<string>, c: TokenContext, agentToken: Jwt, o: Opening)
    requires Describes(c, agentToken, o)
    requires MintPersonAuth(cfg, env, sub, scope, c.agentClaims).Some?
    ensures Names(cfg, MintPersonAuth(cfg, env, sub, scope, c.agentClaims).value.authToken, o)
  {
  }

  lemma AcceptedNames(cfg: PersonConfig, env: Env, token: Jwt, accessServerUrl: string, agentToken: Jwt, o: Opening)
    requires agentToken == o.agentJwt
    requires Parse(o.resourceToken).Ok? && Parse(o.resourceToken).value.Resource?
    requires accessServerUrl == TrimSlash(Parse(o.resourceToken).value.resource.aud)
    requires VerifyFederatedAuthToken(token, accessServerUrl, cfg.resourceUrl, agentToken, env.trust, env.now).None?
    ensures Names(cfg, token, o)
  {
    FederatedExactly(token, accessServerUrl, cfg.resourceUrl, agentToken, env.trust, env.now);
  }

  lemma FederationNames(cfg: PersonConfig, env: Env, c: TokenContext, agentToken: Jwt, o: Opening)
    requires Describes(c, agentToken, o)
    ensures match FederateToAccessServer(cfg, env, c.request.resourceToken, agentToken)
            case None => true
            case Some(FedComplete(body)) => Names(cfg, body.authToken, o)
            case Some(FedDeferred(_, federation)) => federation.accessServerUrl == TrimSlash(c.resourceClaims.aud)
  {
    match FederateToAccessServer(cfg, env, c.request.resourceToken, agentToken)
    case Some(FedComplete(body)) =>
      AcceptedNames(cfg, env, body.authToken, TrimSlash(Parse(o.resourceToken).value.resource.aud), agentToken, o);
    case _ =>
  }

  predicate ReplyOk(cfg: PersonConfig, reply: Reply, o: Opening) {
    reply.Ok? && reply.value.Granted? ==> Names(cfg, reply.value.body.authToken, o)
  }

  /** Nothing but `id` changed. */
  ghost predicate Only(store: Store, store': Store, id: string) {
    && (forall other :: other != id ==> (other in store' <==> other in store))
    && (forall other :: other != id && other in store ==> store'[other] == store[other])
  }

  /** A rewritten record gains no code, keeps a consumed one consumed, and stays with its Access Server. */
  predicate Evolves(old_: PersonContext, new_: PersonContext) {
    && (new_.code.None? || (new_.code == old_.code && (old_.codeConsumed ==> new_.codeConsumed)))
    && (old_.federation.Some? ==>
          new_.federation.Some? && new_.federation.value.accessServerUrl == old_.federation.value.accessServerUrl)
  }

  /** What a call about the pending `id` does to the store. */
  ghost predicate CallOk(cfg: PersonConfig, store: Store, store': Store, reply: Reply, id: string, o: Opening)
    requires id in store
  {
    && ReplyOk(cfg, reply, o)
    && Only(store, store', id)
    && (id in store' ==> RecordOk(cfg, id, store'[id], o) && Evolves(store[id].context, store'[id].context))
  }

  lemma DecidedOk(cfg: PersonConfig, store: Store, id: string, c: TokenContext, env: Env, o: Opening)
    requires id in store && RecordOk(cfg, id, store[id], o) && store[id].context.federation.None?
    requires Describes(c, store[id].context.agentToken, o)
    requires c.resourceClaims.aud == store[id].context.resourceClaims.aud
    ensures var (store', reply) := Decided(cfg, store, id, c, store[id].context.agentToken, env);
            CallOk(cfg, store, store', reply, id, o)
  {
    FederationNames(cfg, env, c, store[id].context.agentToken, o);
    if env.decision.Some? && env.decision.value.Grant? {
      var Grant(sub, scope) := env.decision.value;
      if MintPersonAuth(cfg, env, sub, scope, c.agentClaims).Some? {
        MintedNames(cfg, env, sub, scope, c, store[id].context.agentToken, o);
      }
    }
  }

  lemma RelayedOk(cfg: PersonConfig, store: Store, id: string, input: PendingInput, env: Env, o: Opening)
    requires id in store && RecordOk(cfg, id, store[id], o)
    requires store[id].context.federation.Some?
    ensures var c := store[id].context;
            var (store', reply) := Relayed(cfg, store, id, c.federation.value, c.agentToken, input, env);
            CallOk(cfg, store, store', reply, id, o)
  {
    var c := store[id].context;
    var url := c.federation.value.accessServerUrl;
    forall token: Jwt | VerifyFederatedAuthToken(token, url, cfg.resourceUrl, c.agentToken, env.trust, env.now).None?
      ensures Names(cfg, token, o)
    {
      AcceptedNames(cfg, env, token, url, c.agentToken, o);
    }
  }

  lemma ResumedOk(cfg: PersonConfig, store: Store, id: string, input: PendingInput, env: Env, o: Opening)
    requires id in store && RecordOk(cfg, id, store[id], o)
    ensures var (store', reply) := Resumed(cfg, store, id, input, env);
            CallOk(cfg, store, store', reply, id, o)
  {
    var c := store[id].context;
    if !IsExpired(store[id], env.now) {
      if c.federation.Some? {
        RelayedOk(cfg, store, id, input, env, o);
      } else {
        DecidedOk(cfg, store, id, ContextOf(c), env, o);
      }
    }
  }

  lemma CalledBackOk(cfg: PersonConfig, store: Store, id: string, error: Option<string>, env: Env, o: Opening)
    requires id in store && RecordOk(cfg, id, store[id], o)
    ensures var (store', reply) := CalledBack(cfg, store, id, error, env);
            CallOk(cfg, store, store', reply, id, o)
  {
    if !IsExpired(store[id], env.now) && error.None? && store[id].context.federation.None? {
      var ctx := ContextOf(store[id].context);
      DecidedOk(cfg, store, id, ctx.(resourceClaims := ctx.resourceClaims.(interaction := None)), env, o);
    }
  }

  lemma VerifiedDescribes(cfg: PersonConfig, agentJwt: Jwt, agentJkt: Thumb, request: ExchangeRequest, env: Env, o: Opening)
    requires VerifyTokenRequest(cfg, agentJwt, agentJkt, request, env).Ok?
    requires o.agentJwt == agentJwt && o.resourceToken == request.resourceToken
    ensures Describes(VerifyTokenRequest(cfg, agentJwt, agentJkt, request, env).value, agentJwt, o)
  {
  }

  /** What opening a request does to the store. */
  ghost predicate OpenOk(cfg: PersonConfig, store: Store, store': Store, reply: Reply, id: string, o: Opening) {
    && ReplyOk(cfg, reply, o)
    && Only(store, store', id)
    && (id in store' ==> RecordOk(cfg, id, store'[id], o) && !store'[id].context.codeConsumed)
  }

  lemma CreatedOk(cfg: PersonConfig, store: Store, context: PersonContext, requirement: Requirement, env: Env, o: Opening)
    requires env.freshId !in store
    requires Describes(ContextOf(context), context.agentToken, o) && o.expiresAt == env.now + cfg.ttl
    requires FederationOk(context) && !context.codeConsumed
    ensures var (store', reply) := Created(cfg, store, context, requirement, env);
            OpenOk(cfg, store, store', reply, env.freshId, o)
  {
  }

  lemma ExchangedOk(cfg: PersonConfig, store: Store, c: TokenContext, agentJwt: Jwt, env: Env, o: Opening)
    requires env.freshId !in store
    requires Describes(c, agentJwt, o) && o.expiresAt == env.now + cfg.ttl
    ensures var (store', reply) := Exchanged(cfg, store, c, agentJwt, env);
            OpenOk(cfg, store, store', reply, env.freshId, o)
  {
    if c.resourceClaims.interaction.Some? {
      var code := CodeOfBytes(env.codeBytes);
      CreatedOk(cfg, store, PendingContext(c, agentJwt, None, c.resourceClaims.interaction, Some(Canonicalize(code))),
                Interaction(cfg.interactionUrl, code), env, o);
    } else if env.decision.Some? {
      match env.decision.value
      case Grant(sub, scope) =>
        if MintPersonAuth(cfg, env, sub, scope, c.agentClaims).Some? {
          MintedNames(cfg, env, sub, scope, c, agentJwt, o);
        }
      case Federate =>
        FederationNames(cfg, env, c, agentJwt, o);
        var federated := FederateToAccessServer(cfg, env, c.request.resourceToken, agentJwt);
        if federated.Some? && federated.value.FedDeferred? {
          var FedDeferred(requirement, federation) := federated.value;
          CreatedOk(cfg, store, PendingContext(c, agentJwt, Some(federation), None, None), requirement, env, o);
        }
      case Deny(_) =>
      case Defer(requirement) =>
        CreatedOk(cfg, store, PendingContext(c, agentJwt, None, None, None), requirement, env, o);
    }
  }

  lemma RequestedOk(cfg: PersonConfig, store: Store, agentJwt: Jwt, agentJkt: Thumb, request: ExchangeRequest, env: Env)
    requires env.freshId !in store
    ensures var (store', reply) := Requested(cfg, store, agentJwt, agentJkt, request, env);
            OpenOk(cfg, store, store', reply, env.freshId, Opening(agentJwt, request.resourceToken, env.now + cfg.ttl))
  {
    var o := Opening(agentJwt, request.resourceToken, env.now + cfg.ttl);
    var verified := VerifyTokenRequest(cfg, agentJwt, agentJkt, request, env);
    if verified.Ok? {
      VerifiedDescribes(cfg, agentJwt, agentJkt, request, env, o);
      ExchangedOk(cfg, store, verified.value, agentJwt, env, o);
    }
  }

  // ----- every step keeps the invariant -----

  function OpeningOf(w: World, ev: Event, cfg: PersonConfig): (r: Option<Opening>) {
    match ev
    case TokenRequest(agentJwt, _, request, env) => Some(Opening(agentJwt, request.resourceToken, env.now + cfg.ttl))
    case PollEvent(id, _) => if id in w.openings then Some(w.openings[id]) else None
    case Resume(id, _, _) => if id in w.openings then Some(w.openings[id]) else None
    case Begin(_, _, _) => None
    case Callback(id, _, _) => if id in w.openings then Some(w.openings[id]) else None
  }

  /** The auth token handed out by a step, if it hands one out. */
  function TokenGiven(cfg: PersonConfig, w: World, ev: Event): (r: Option<Jwt>)
    requires ValidEvent(w, ev)
  {
    var reply: Reply :=
      match ev
      case TokenRequest(agentJwt, agentJkt, request, env) => Requested(cfg, w.store, agentJwt, agentJkt, request, env).1
      case PollEvent(id, now) =>
        (match Polled(w.store, id, now).1
         case Finished(AuthToken(body)) => Ok(Granted(body))
         case _ => Ok(Gone))
      case Resume(id, input, env) => Resumed(cfg, w.store, id, input, env).1
      case Begin(_, _, _) => Ok(Gone)
      case Callback(id, error, env) => CalledBack(cfg, w.store, id, error, env).1;
    if reply.Ok? && reply.value.Granted? then Some(reply.value.body.authToken) else None
  }

  ghost predicate GivenOk(cfg: PersonConfig, w: World, ev: Event)
    requires ValidEvent(w, ev)
  {
    var given := TokenGiven(cfg, w, ev);
    given.Some? ==> OpeningOf(w, ev, cfg).Some? && Names(cfg, given.value, OpeningOf(w, ev, cfg).value)
  }

  /** How one step relates two worlds: it concerns one id, opens it, rewrites it, or removes it. */
  ghost predicate StepRel(cfg: PersonConfig, w: World, w': World, id: string) {
    && Only(w.store, w'.store, id)
    && (forall k :: k in w.openings ==> k in w'.openings && w'.openings[k] == w.openings[k])
    && (id in w'.store ==> id in w'.openings && RecordOk(cfg, id, w'.store[id], w'.openings[id]))
    && (if id in w.store || id !in w'.store then
          && (id in w'.store ==> Evolves(w.store[id].context, w'.store[id].context))
          && w'.created == w.created
        else
          && id !in w.openings
          && !w'.store[id].context.codeConsumed
          && w'.created == w.created + CodesOf(w'.store[id]))
    && (w'.hits == w.hits || FindsCode(w, w', id))
  }

  /** The step looked `id` up by its code, which is not live afterwards. */
  ghost predicate FindsCode(w: World, w': World, id: string) {
    && id in w.store && w.store[id].context.code.Some? && !w.store[id].context.codeConsumed
    && w'.hits == w.hits + multiset{w.store[id].context.code.value}
    && (id in w'.store ==> w'.store[id].context.codeConsumed)
  }

  function Target(ev: Event): (r: string) {
    match ev
    case TokenRequest(_, _, _, env) => env.freshId
    case PollEvent(id, _) => id
    case Resume(id, _, _) => id
    case Begin(_, found, _) => if found.Some? then found.value else ""
    case Callback(id, _, _) => id
  }

  lemma RequestStep(cfg: PersonConfig, w: World, ev: Event)
    requires Inv(cfg, w) && ValidEvent(w, ev) && ev.TokenRequest?
    ensures StepRel(cfg, w, Next(cfg, w, ev), Target(ev)) && GivenOk(cfg, w, ev)
  {
    RequestedOk(cfg, w.store, ev.agentJwt, ev.agentJkt, ev.request, ev.env);
  }

  lemma CallRel(cfg: PersonConfig, w: World, w': World, id: string)
    requires Inv(cfg, w) && id in w.store
    requires w'.openings == w.openings && w'.created == w.created
    requires w'.hits == w.hits || FindsCode(w, w', id)
    requires Only(w.store, w'.store, id)
    requires id in w'.store ==> RecordOk(cfg, id, w'.store[id], w.openings[id]) && Evolves(w.store[id].context, w'.store[id].context)
    ensures StepRel(cfg, w, w', id)
  {
  }

  lemma CallStep(cfg: PersonConfig, w: World, store: Store, reply: Reply, id: string)
    requires Inv(cfg, w) && id in w.store && CallOk(cfg, w.store, store, reply, id, w.openings[id])
    ensures StepRel(cfg, w, w.(store := store), id) && ReplyOk(cfg, reply, w.openings[id])
  {
    CallRel(cfg, w, w.(store := store), id);
  }

  lemma PolledOk(cfg: PersonConfig, store: Store, id: string, now: nat, o: Opening)
    requires id in store && RecordOk(cfg, id, store[id], o)
    ensures var (store', outcome) := Polled(store, id, now);
            && Only(store, store', id)
            && (id in store' ==> RecordOk(cfg, id, store'[id], o) && Evolves(store[id].context, store'[id].context))
            && (outcome.Finished? && outcome.outcome.AuthToken? ==> Names(cfg, outcome.outcome.body.authToken, o))
  {
  }

  lemma NothingHappened(cfg: PersonConfig, w: World, id: string)
    requires Inv(cfg, w)
    ensures StepRel(cfg, w, w, id)
  {
  }

  lemma PollStep(cfg: PersonConfig, w: World, ev: Event)
    requires Inv(cfg, w) && ValidEvent(w, ev) && ev.PollEvent?
    ensures StepRel(cfg, w, Next(cfg, w, ev), Target(ev)) && GivenOk(cfg, w, ev)
  {
    if ev.id in w.store {
      PolledOk(cfg, w.store, ev.id, ev.now, w.openings[ev.id]);
      CallRel(cfg, w, Next(cfg, w, ev), ev.id);
    } else {
      assert Next(cfg, w, ev) == w;
      NothingHappened(cfg, w, ev.id);
    }
  }

  lemma ResumeStep(cfg: PersonConfig, w: World, ev: Event)
    requires Inv(cfg, w) && ValidEvent(w, ev) && ev.Resume?
    ensures StepRel(cfg, w, Next(cfg, w, ev), Target(ev)) && GivenOk(cfg, w, ev)
  {
    if ev.id in w.store {
      ResumedOk(cfg, w.store, ev.id, ev.input, ev.env, w.openings[ev.id]);
      var (store, reply) := Resumed(cfg, w.store, ev.id, ev.input, ev.env);
      CallStep(cfg, w, store, reply, ev.id);
    }
  }

  lemma CallbackStep(cfg: PersonConfig, w: World, ev: Event)
    requires Inv(cfg, w) && ValidEvent(w, ev) && ev.Callback?
    ensures StepRel(cfg, w, Next(cfg, w, ev), Target(ev)) && GivenOk(cfg, w, ev)
  {
    if ev.id in w.store {
      CalledBackOk(cfg, w.store, ev.id, ev.error, ev.env, w.openings[ev.id]);
      var (store, reply) := CalledBack(cfg, w.store, ev.id, ev.error, ev.env);
      CallStep(cfg, w, store, reply, ev.id);
    }
  }

  lemma BegunOk(cfg: PersonConfig, store: Store, id: string, env: Env, o: Opening)
    requires id in store && RecordOk(cfg, id, store[id], o) && store[id].context.code.Some?
    ensures var store' := Begun(cfg, store, Some(id), env).0;
            && Only(store, store', id)
            && (id in store' ==>
                  && RecordOk(cfg, id, store'[id], o)
                  && Evolves(store[id].context, store'[id].context)
                  && store'[id].context.codeConsumed)
  {
    var record := Consumed(store[id]);
    assert RecordOk(cfg, id, record, o);
    assert Begun(cfg, store, Some(id), env).0 == if IsExpired(store[id], env.now) then Removed(store, id) else store[id := record];
  }

  lemma LookedUpRel(cfg: PersonConfig, w: World, id: string, canonical: string, env: Env)
    requires Inv(cfg, w) && id in w.store && Matches(w.store[id], canonical)
    ensures StepRel(cfg, w, LookedUp(cfg, w, Some(id), canonical, env), id)
  {
    BegunOk(cfg, w.store, id, env, w.openings[id]);
    CallRel(cfg, w, LookedUp(cfg, w, Some(id), canonical, env), id);
  }

  lemma BeginStep(cfg: PersonConfig, w: World, ev: Event)
    requires Inv(cfg, w) && ValidEvent(w, ev) && ev.Begin?
    ensures StepRel(cfg, w, Next(cfg, w, ev), Target(ev)) && GivenOk(cfg, w, ev)
  {
    if ev.found.Some? {
      LookedUpRel(cfg, w, ev.found.value, Canonicalize(ev.code), ev.env);
    }
  }

  lemma StepIsRel(cfg: PersonConfig, w: World, ev: Event)
    requires Inv(cfg, w) && ValidEvent(w, ev)
    ensures StepRel(cfg, w, Next(cfg, w, ev), Target(ev)) && GivenOk(cfg, w, ev)
  {
    match ev
    case TokenRequest(_, _, _, _) => RequestStep(cfg, w, ev);
    case PollEvent(_, _) => PollStep(cfg, w, ev);
    case Resume(_, _, _) => ResumeStep(cfg, w, ev);
    case Begin(_, _, _) => BeginStep(cfg, w, ev);
    case Callback(_, _, _) => CallbackStep(cfg, w, ev);
  }

  lemma RelKeepsInv(cfg: PersonConfig, w: World, w': World, id: string)
    requires Inv(cfg, w) && StepRel(cfg, w, w', id)
    ensures Inv(cfg, w')
  {
    forall k | k in w'.store ensures k in w'.openings && RecordOk(cfg, k, w'.store[k], w'.openings[k]) {
      if k != id {
        assert k in w.store;
      }
    }
  }

  lemma {:induction false} RunKeepsInv(cfg: PersonConfig, evs: seq<Event>)
    requires ValidRun(cfg, evs)
    ensures Inv(cfg, Run(cfg, evs))
  {
    if evs != [] {
      RunKeepsInv(cfg, evs[..|evs| - 1]);
      var w, ev := Run(cfg, evs[..|evs| - 1]), evs[|evs| - 1];
      StepIsRel(cfg, w, ev);
      RelKeepsInv(cfg, w, Next(cfg, w, ev), Target(ev));
    }
  }

  lemma {:induction false} PrefixValid(cfg: PersonConfig, evs: seq<Event>, i: nat)
    requires ValidRun(cfg, evs) && i <= |evs|
    ensures ValidRun(cfg, evs[..i])
  {
    if i == |evs| {
      assert evs[..i] == evs;
    } else {
      var before := evs[..|evs| - 1];
      assert before[..i] == evs[..i];
      PrefixValid(cfg, before, i);
    }
  }

  lemma StepOfRun(cfg: PersonConfig, evs: seq<Event>, i: nat)
    requires ValidRun(cfg, evs) && i < |evs|
    ensures ValidRun(cfg, evs[..i]) && ValidEvent(Run(cfg, evs[..i]), evs[i])
  {
    PrefixValid(cfg, evs, i);
    PrefixValid(cfg, evs, i + 1);
    assert evs[..i + 1][..i] == evs[..i];
  }

  /** Token provenance, over every run. */
  lemma TokensNameTheirOpener(cfg: PersonConfig, evs: seq<Event>, i: nat)
    requires ValidRun(cfg, evs) && i < |evs|
    ensures ValidRun(cfg, evs[..i]) && ValidEvent(Run(cfg, evs[..i]), evs[i])
    ensures GivenOk(cfg, Run(cfg, evs[..i]), evs[i])
    ensures var w := Run(cfg, evs);
            forall id :: id in w.store && w.store[id].snapshot.Complete? && w.store[id].snapshot.outcome.AuthToken? ==>
              id in w.openings && Names(cfg, w.store[id].snapshot.outcome.body.authToken, w.openings[id])
  {
    StepOfRun(cfg, evs, i);
    RunKeepsInv(cfg, evs[..i]);
    StepIsRel(cfg, Run(cfg, evs[..i]), evs[i]);
    RunKeepsInv(cfg, evs);
  }

  // ----- interaction codes are single use -----

  /** The records a lookup of `code` could still return. */
  function Live(store: Store, code: string): (r: set<string>) {
    set id | id in store && Matches(store[id], code)
  }

  ghost predicate Conserved(w: World) {
    forall code :: w.hits[code] + |Live(w.store, code)| <= w.created[code]
  }

  lemma {:induction false} SubsetSize<T>(a: set<T>, b: set<T>)
    requires a <= b
    ensures |a| <= |b|
  {
    if a != {} {
      var x :| x in a;
      SubsetSize(a - {x}, b - {x});
    }
  }

  lemma LiveAfterOpening(cfg: PersonConfig, w: World, w': World, id: string, code: string)
    requires StepRel(cfg, w, w', id) && id !in w.store && id in w'.store
    ensures w'.hits == w.hits
    ensures Live(w'.store, code) <= Live(w.store, code) + (if Matches(w'.store[id], code) then {id} else {})
    ensures w'.created[code] >= w.created[code] + if Matches(w'.store[id], code) then 1 else 0
  {
  }

  lemma LiveAfterLookup(cfg: PersonConfig, w: World, w': World, id: string, code: string)
    requires StepRel(cfg, w, w', id) && id in w.store && w'.hits != w.hits && Some(code) == w.store[id].context.code
    ensures id in Live(w.store, code) && Live(w'.store, code) <= Live(w.store, code) - {id}
    ensures w'.created == w.created && w'.hits[code] == w.hits[code] + 1
  {
  }

  lemma LiveOtherwise(cfg: PersonConfig, w: World, w': World, id: string, code: string)
    requires StepRel(cfg, w, w', id) && (id in w.store || id !in w'.store)
    requires w'.hits == w.hits || (id in w.store && Some(code) != w.store[id].context.code)
    ensures Live(w'.store, code) <= Live(w.store, code)
    ensures w'.created == w.created && w'.hits[code] == w.hits[code]
  {
  }

  lemma RelKeepsCode(cfg: PersonConfig, w: World, w': World, id: string, code: string)
    requires StepRel(cfg, w, w', id)
    requires w.hits[code] + |Live(w.store, code)| <= w.created[code]
    ensures w'.hits[code] + |Live(w'.store, code)| <= w'.created[code]
  {
    var live, live' := Live(w.store, code), Live(w'.store, code);
    if id !in w.store && id in w'.store {
      LiveAfterOpening(cfg, w, w', id, code);
      SubsetSize(live', live + if Matches(w'.store[id], code) then {id} else {});
    } else if w'.hits != w.hits && Some(code) == w.store[id].context.code {
      LiveAfterLookup(cfg, w, w', id, code);
      SubsetSize(live', live - {id});
    } else {
      LiveOtherwise(cfg, w, w', id, code);
      SubsetSize(live', live);
    }
  }

  /** Conservation, step by step: a new record adds one live code, a lookup uses one up. */
  lemma RelKeepsConserved(cfg: PersonConfig, w: World, w': World, id: string)
    requires Conserved(w) && StepRel(cfg, w, w', id)
    ensures Conserved(w')
  {
    forall code ensures w'.hits[code] + |Live(w'.store, code)| <= w'.created[code] {
      RelKeepsCode(cfg, w, w', id, code);
    }
  }

  lemma {:induction false} RunKeepsConserved(cfg: PersonConfig, evs: seq<Event>)
    requires ValidRun(cfg, evs)
    ensures Conserved(Run(cfg, evs))
  {
    if evs == [] {
      forall code ensures Live(START.store, code) == {} { }
    } else {
      var before := evs[..|evs| - 1];
      RunKeepsInv(cfg, before);
      RunKeepsConserved(cfg, before);
      var w, ev := Run(cfg, before), evs[|evs| - 1];
      StepIsRel(cfg, w, ev);
      RelKeepsConserved(cfg, w, Next(cfg, w, ev), Target(ev));
    }
  }

  /** A code handed out once is found at most once, and after that lookup by nobody. */
  lemma CodeFoundAtMostOnce(cfg: PersonConfig, evs: seq<Event>, code: string)
    requires ValidRun(cfg, evs)
    requires Run(cfg, evs).created[code] <= 1
    ensures Run(cfg, evs).hits[code] <= 1
    ensures Run(cfg, evs).hits[code] == 1 ==>
              forall id :: id in Run(cfg, evs).store ==> !Matches(Run(cfg, evs).store[id], code)
  {
    RunKeepsConserved(cfg, evs);
    var w := Run(cfg, evs);
    assert w.hits[code] + |Live(w.store, code)| <= w.created[code];
    if w.hits[code] == 1 {
      forall id | id in w.store ensures !Matches(w.store[id], code) {
        assert id in Live(w.store, code) <==> Matches(w.store[id], code);
      }
    }
  }

  /** A found, unexpired code always leads to the resource's own page: the other branch is dead. */
  lemma FoundCodeRedirects(cfg: PersonConfig, evs: seq<Event>, code: string, id: string, env: Env)
    requires ValidRun(cfg, evs)
    requires ValidEvent(Run(cfg, evs), Begin(code, Some(id), env))
    requires !IsExpired(Run(cfg, evs).store[id], env.now)
    ensures var record := Run(cfg, evs).store[id];
            && record.context.resourceInteraction.Some?
            && Begun(cfg, Run(cfg, evs).store, Some(id), env).1
               == match env.redirect(record.context.resourceInteraction.value, CallbackUrl(cfg, id))
                  case None => Err(InvalidInteractionUrl)
                  case Some(url) => Ok(Redirect(url))
  {
    RunKeepsInv(cfg, evs);
  }

  // ----- a federated id stays with its Access Server -----

  lemma RelKeepsFederation(cfg: PersonConfig, w: World, w': World, target: string, id: string)
    requires StepRel(cfg, w, w', target) && id in w.openings && id in w'.store
    ensures id in w.store
    ensures w.store[id].context.federation.Some? ==>
              && w'.store[id].context.federation.Some?
              && w'.store[id].context.federation.value.accessServerUrl == w.store[id].context.federation.value.accessServerUrl
  {
  }

  lemma {:induction false} FederationPersists(cfg: PersonConfig, evs: seq<Event>, i: nat, id: string)
    requires ValidRun(cfg, evs) && i <= |evs|
    requires ValidRun(cfg, evs[..i]) && id in Run(cfg, evs[..i]).store && Run(cfg, evs[..i]).store[id].context.federation.Some?
    requires id in Run(cfg, evs).store
    ensures Run(cfg, evs).store[id].context.federation.Some?
    ensures Run(cfg, evs).store[id].context.federation.value.accessServerUrl
            == Run(cfg, evs[..i]).store[id].context.federation.value.accessServerUrl
  {
    if i == |evs| {
      assert evs[..i] == evs;
    } else {
      var before := evs[..|evs| - 1];
      assert before[..i] == evs[..i];
      RunKeepsInv(cfg, before);
      RunKeepsInv(cfg, evs[..i]);
      StaysOpened(cfg, before, i, id);
      var w, ev := Run(cfg, before), evs[|evs| - 1];
      StepIsRel(cfg, w, ev);
      RelKeepsFederation(cfg, w, Next(cfg, w, ev), Target(ev), id);
      FederationPersists(cfg, before, i, id);
    }
  }

  lemma {:induction false} StaysOpened(cfg: PersonConfig, evs: seq<Event>, i: nat, id: string)
    requires ValidRun(cfg, evs) && i <= |evs| && ValidRun(cfg, evs[..i])
    requires id in Run(cfg, evs[..i]).openings
    ensures id in Run(cfg, evs).openings
  {
    if i == |evs| {
      assert evs[..i] == evs;
    } else {
      var before := evs[..|evs| - 1];
      assert before[..i] == evs[..i];
      StaysOpened(cfg, before, i, id);
      RunKeepsInv(cfg, before);
      StepIsRel(cfg, Run(cfg, before), evs[|evs| - 1]);
    }
  }

  /** ... which is the one its own resource token names. */
  lemma FederatedToTheNamedServer(cfg: PersonConfig, evs: seq<Event>, id: string)
    requires ValidRun(cfg, evs) && id in Run(cfg, evs).store && Run(cfg, evs).store[id].context.federation.Some?
    ensures var c := Run(cfg, evs).store[id].context;
            && Parse(c.request.resourceToken).Ok? && Parse(c.request.resourceToken).value.Resource?
            && c.federation.value.accessServerUrl == TrimSlash(Parse(c.request.resourceToken).value.resource.aud)
  {
    RunKeepsInv(cfg, evs);
  }

  lemma PolicyIrrelevant(cfg: PersonConfig, store: Store, id: string, input: PendingInput, error: Option<string>, env: Env, other: Option<Decision>)
    requires id in store ==> store[id].context.federation.Some?
    ensures Resumed(cfg, store, id, input, env) == Resumed(cfg, store, id, input, env.(decision := other))
    ensures CalledBack(cfg, store, id, error, env) == CalledBack(cfg, store, id, error, env.(decision := other))
  {
  }

  /** Once an id is federated, no policy decision can influence what later calls on it do. */
  lemma PolicyNeverConsultedAgain(cfg: PersonConfig, evs: seq<Event>, i: nat, id: string, input: PendingInput, error: Option<string>, env: Env, other: Option<Decision>)
    requires ValidRun(cfg, evs) && i <= |evs|
    requires ValidRun(cfg, evs[..i]) && id in Run(cfg, evs[..i]).store && Run(cfg, evs[..i]).store[id].context.federation.Some?
    ensures var store := Run(cfg, evs).store;
            && Resumed(cfg, store, id, input, env) == Resumed(cfg, store, id, input, env.(decision := other))
            && CalledBack(cfg, store, id, error, env) == CalledBack(cfg, store, id, error, env.(decision := other))
  {
    if id in Run(cfg, evs).store {
      FederationPersists(cfg, evs, i, id);
    }
    PolicyIrrelevant(cfg, Run(cfg, evs).store, id, input, error, env, other);
  }

  // ----- replies and later polls agree -----

  /** What a poll of `id` reports while the record is unexpired. */
  predicate PollReports(store: Store, id: string, reply: Reply, cfg: PersonConfig) {
    match reply
    case Ok(Granted(body)) => id in store && store[id].snapshot == Complete(AuthToken(body))
    case Ok(Denied(error)) => id in store && store[id].snapshot == Complete(Failed(error))
    case Ok(Deferred(location, requirement)) =>
      id in store && store[id].snapshot == Waiting(Pending, requirement) && location == PendingLocation(cfg, id)
    case Ok(Gone) => id !in store
    case _ => true
  }

  ghost predicate Answers(cfg: PersonConfig, store: Store, id: string, result: (Store, Reply)) {
    && PollReports(result.0, id, result.1, cfg)
    && (result.1.Err? || result.1.value.Unauthorized? || result.1.value.BadGateway? ==> result.0 == store)
  }

  lemma DecidedAnswers(cfg: PersonConfig, store: Store, id: string, ctx: TokenContext, agentJwt: Jwt, env: Env)
    requires id in store
    ensures Answers(cfg, store, id, Decided(cfg, store, id, ctx, agentJwt, env))
  {
  }

  /** A resume answers what the next poll of the same id will report; one that fails changes nothing. */
  lemma ResumeAgreesWithNextPoll(cfg: PersonConfig, store: Store, id: string, input: PendingInput, env: Env)
    ensures Answers(cfg, store, id, Resumed(cfg, store, id, input, env))
  {
    if id in store {
      DecidedAnswers(cfg, store, id, ContextOf(store[id].context), store[id].context.agentToken, env);
    }
  }

  lemma CallbackAgreesWithNextPoll(cfg: PersonConfig, store: Store, id: string, error: Option<string>, env: Env)
    ensures Answers(cfg, store, id, CalledBack(cfg, store, id, error, env))
  {
    if id in store {
      var ctx := ContextOf(store[id].context);
      DecidedAnswers(cfg, store, id, ctx.(resourceClaims := ctx.resourceClaims.(interaction := None)), store[id].context.agentToken, env);
    }
  }

  /** An exchange stores a record exactly when it answers with a location for it. */
  lemma ExchangeStoresWhatItDefers(cfg: PersonConfig, store: Store, agentJwt: Jwt, agentJkt: Thumb, request: ExchangeRequest, env: Env)
    requires env.freshId !in store
    ensures var (store', reply) := Requested(cfg, store, agentJwt, agentJkt, request, env);
            if reply.Ok? && reply.value.Deferred? then PollReports(store', env.freshId, reply, cfg) && store'.Keys == store.Keys + {env.freshId}
            else store' == store
  {
    var verified := VerifyTokenRequest(cfg, agentJwt, agentJkt, request, env);
    if verified.Ok? {
      ExchangedStores(cfg, store, verified.value, agentJwt, env);
    }
  }

  lemma ExchangedStores(cfg: PersonConfig, store: Store, ctx: TokenContext, agentJwt: Jwt, env: Env)
    ensures var (store', reply) := Exchanged(cfg, store, ctx, agentJwt, env);
            if reply.Ok? && reply.value.Deferred? then PollReports(store', env.freshId, reply, cfg) && store'.Keys == store.Keys + {env.freshId}
            else store' == store
  {
  }
}
