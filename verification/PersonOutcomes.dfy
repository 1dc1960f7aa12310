/**
 How long a finished outcome lasts at the Person Server.

 Nothing in a resume, a callback or a relay looks whether the record is already complete,
 so a later call can replace its outcome, or make it wait again. The guards of those calls
 say exactly when.
 */
module PersonOutcomes {
  import opened Prelude
  import opened Tokens
  import opened Deferral
  import opened PendingStore
  import opened PersonServer
  import opened PersonRuns

  /** What a call writes over a record that is stored. */
  datatype Effect = Forgets | Finishes(outcome: Outcome) | Waits

  /** A policy decision writes unless the policy, the mint or the Access Server fails it. */
  function DecisionEffect(cfg: PersonConfig, c: PersonContext, env: Env): (r: Option<Effect>) {
    match env.decision
    case None => None
    case Some(Grant(sub, scope)) =>
      if env.jti.None? then None
      else Some(Finishes(AuthToken(MintPersonAuth(cfg, env, sub, scope, c.agentClaims).value)))
    case Some(Federate) =>
      (match FederateToAccessServer(cfg, env, c.request.resourceToken, c.agentToken)
       case None => None
       case Some(FedComplete(body)) => Some(Finishes(AuthToken(body)))
       case Some(FedDeferred(_, _)) => Some(Waits))
    case Some(Deny(error)) => Some(Finishes(Failed(error)))
    case Some(Defer(_)) => Some(Waits)
  }

  /** A relayed input writes unless the Access Server fails it or its token is refused. */
  function RelayEffect(cfg: PersonConfig, federation: Federation, agentToken: Jwt, input: PendingInput, env: Env)
    : (r: Option<Effect>)
  {
    if input.Cancelled? then Some(Finishes(Failed(REQUEST_CANCELLED)))
    else
      match env.asResume
      case None => None
      case Some(Some(body)) => AcceptedEffect(cfg, federation, agentToken, body, env)
      case Some(None) =>
        match env.asPoll
        case None => None
        case Some(AsToken(body)) => AcceptedEffect(cfg, federation, agentToken, body, env)
        case Some(AsWaiting(_, _)) => Some(Waits)
        case Some(AsError(error)) => Some(Finishes(Failed(error)))
        case Some(AsGone) => Some(Forgets)
  }

  function AcceptedEffect(cfg: PersonConfig, federation: Federation, agentToken: Jwt, body: TokenResponse, env: Env)
    : (r: Option<Effect>)
  {
    if VerifyFederatedAuthToken(body.authToken, federation.accessServerUrl, cfg.resourceUrl, agentToken, env.trust, env.now).None?
    then Some(Finishes(AuthToken(body))) else None
  }

  /** What a call does to the finished record `id`, read off its guards; None when it writes nothing there. */
  function EffectOn(cfg: PersonConfig, id: string, record: Record<PersonContext>, ev: Event): (r: Option<Effect>) {
    var c := record.context;
    match ev
    case TokenRequest(_, _, _, _) => None
    case PollEvent(polled, now) => if polled == id && IsExpired(record, now) then Some(Forgets) else None
    case Begin(_, found, env) => if found == Some(id) && IsExpired(record, env.now) then Some(Forgets) else None
    case Resume(resumed, input, env) =>
      if resumed != id then None
      else if IsExpired(record, env.now) then Some(Forgets)
      else if c.federation.Some? then RelayEffect(cfg, c.federation.value, c.agentToken, input, env)
      else DecisionEffect(cfg, c, env)
    case Callback(called, error, env) =>
      if called != id then None
      else if IsExpired(record, env.now) then Some(Forgets)
      else if error.Some? then Some(Finishes(Failed(MapCallbackError(error.value))))
      else if c.federation.Some? then None
      else DecisionEffect(cfg, c, env)
  }

  /** The record is stored, and finished with this outcome. */
  predicate Holds(store: Store, id: string, outcome: Outcome) {
    id in store && store[id].snapshot == Complete(outcome)
  }

  /** The record is as the effect leaves it. */
  predicate Left(store: Store, id: string, was: Snapshot, effect: Option<Effect>) {
    match effect
    case None => id in store && store[id].snapshot == was
    case Some(Forgets) => id !in store
    case Some(Finishes(outcome)) => Holds(store, id, outcome)
    case Some(Waits) => id in store && store[id].snapshot.Waiting?
  }

  lemma DecidedLeaves(cfg: PersonConfig, store: Store, id: string, ctx: TokenContext, env: Env)
    requires id in store
    requires ctx.agentClaims == store[id].context.agentClaims
    requires ctx.request == store[id].context.request
    ensures Left(Decided(cfg, store, id, ctx, store[id].context.agentToken, env).0, id, store[id].snapshot,
                 DecisionEffect(cfg, store[id].context, env))
  {
  }

  lemma RelayedLeaves(cfg: PersonConfig, store: Store, id: string, input: PendingInput, env: Env)
    requires id in store && store[id].context.federation.Some?
    ensures var c := store[id].context;
            Left(Relayed(cfg, store, id, c.federation.value, c.agentToken, input, env).0, id, store[id].snapshot,
                 RelayEffect(cfg, c.federation.value, c.agentToken, input, env))
  {
  }

  lemma ResumeLeaves(cfg: PersonConfig, store: Store, id: string, input: PendingInput, env: Env)
    requires id in store
    ensures Left(Resumed(cfg, store, id, input, env).0, id, store[id].snapshot,
                 EffectOn(cfg, id, store[id], Resume(id, input, env)))
  {
    var c := store[id].context;
    if !IsExpired(store[id], env.now) {
      if c.federation.Some? {
        RelayedLeaves(cfg, store, id, input, env);
      } else {
        DecidedLeaves(cfg, store, id, ContextOf(c), env);
      }
    }
  }

  lemma CallbackLeaves(cfg: PersonConfig, store: Store, id: string, error: Option<string>, env: Env)
    requires id in store
    ensures Left(CalledBack(cfg, store, id, error, env).0, id, store[id].snapshot,
                 EffectOn(cfg, id, store[id], Callback(id, error, env)))
  {
    if !IsExpired(store[id], env.now) && error.None? && store[id].context.federation.None? {
      var ctx := ContextOf(store[id].context);
      DecidedLeaves(cfg, store, id, ctx.(resourceClaims := ctx.resourceClaims.(interaction := None)), env);
    }
  }

  lemma BeginLeaves(cfg: PersonConfig, store: Store, code: string, id: string, env: Env)
    requires id in store && store[id].snapshot.Complete?
    ensures Left(Begun(cfg, store, Some(id), env).0, id, store[id].snapshot,
                 EffectOn(cfg, id, store[id], Begin(code, Some(id), env)))
  {
  }

  /** A call about another id leaves this one alone. */
  lemma OthersLeave(cfg: PersonConfig, w: World, ev: Event, id: string)
    requires Inv(cfg, w) && ValidEvent(w, ev) && id in w.store && Target(ev) != id
    ensures id in Next(cfg, w, ev).store && Next(cfg, w, ev).store[id] == w.store[id]
  {
    StepIsRel(cfg, w, ev);
  }

  /** Every call leaves a finished record exactly as its guards say. */
  lemma StepLeaves(cfg: PersonConfig, w: World, ev: Event, id: string)
    requires Inv(cfg, w) && ValidEvent(w, ev)
    requires id in w.store && w.store[id].snapshot.Complete?
    ensures Left(Next(cfg, w, ev).store, id, w.store[id].snapshot, EffectOn(cfg, id, w.store[id], ev))
  {
    assert id in w.openings;
    if Target(ev) != id {
      OthersLeave(cfg, w, ev, id);
    } else {
      match ev
      case TokenRequest(_, _, _, _) =>
      case PollEvent(_, _) =>
      case Resume(_, input, env) => ResumeLeaves(cfg, w.store, id, input, env);
      case Callback(_, error, env) => CallbackLeaves(cfg, w.store, id, error, env);
      case Begin(code, found, env) =>
        if found.Some? {
          BeginLeaves(cfg, w.store, code, id, env);
        }
    }
  }

  /** A call keeps the outcome: it writes nothing there, or writes the same again. */
  predicate Keeps(cfg: PersonConfig, id: string, record: Record<PersonContext>, ev: Event, outcome: Outcome) {
    EffectOn(cfg, id, record, ev) in {None, Some(Finishes(outcome))}
  }

  lemma LeftKept(store: Store, id: string, effect: Option<Effect>, outcome: Outcome)
    requires Left(store, id, Complete(outcome), effect)
    ensures Holds(store, id, outcome) <==> effect in {None, Some(Finishes(outcome))}
  {
  }

  lemma KeptExactly(cfg: PersonConfig, w: World, ev: Event, id: string, outcome: Outcome)
    requires Inv(cfg, w) && ValidEvent(w, ev) && Holds(w.store, id, outcome)
    ensures Holds(Next(cfg, w, ev).store, id, outcome) <==> Keeps(cfg, id, w.store[id], ev, outcome)
  {
    StepLeaves(cfg, w, ev, id);
    LeftKept(Next(cfg, w, ev).store, id, EffectOn(cfg, id, w.store[id], ev), outcome);
  }

  // ----- over whole runs -----

  /** The store before each call of a run, and after the last. */
  function Stores(cfg: PersonConfig, evs: seq<Event>): (r: seq<Store>)
    requires ValidRun(cfg, evs)
    ensures |r| == |evs| + 1 && r[|evs|] == Run(cfg, evs).store
  {
    if evs == [] then [START.store] else Stores(cfg, evs[..|evs| - 1]) + [Run(cfg, evs).store]
  }

  /** Call `k` finds the finished record and keeps its outcome. */
  predicate KeepsAt(cfg: PersonConfig, store: Store, ev: Event, id: string, outcome: Outcome) {
    id in store && Keeps(cfg, id, store[id], ev, outcome)
  }

  lemma KeptLast(cfg: PersonConfig, w: World, ev: Event, after: Store, id: string, outcome: Outcome)
    requires Inv(cfg, w) && ValidEvent(w, ev) && Holds(w.store, id, outcome) && after == Next(cfg, w, ev).store
    ensures Holds(after, id, outcome) <==> KeepsAt(cfg, w.store, ev, id, outcome)
  {
    KeptExactly(cfg, w, ev, id, outcome);
  }

  lemma {:induction false} StepAt(cfg: PersonConfig, evs: seq<Event>, k: nat, id: string, outcome: Outcome)
    requires ValidRun(cfg, evs) && k < |evs| && Holds(Stores(cfg, evs)[k], id, outcome)
    ensures var stores := Stores(cfg, evs);
            Holds(stores[k + 1], id, outcome) <==> KeepsAt(cfg, stores[k], evs[k], id, outcome)
  {
    var before := evs[..|evs| - 1];
    assert Stores(cfg, evs) == Stores(cfg, before) + [Run(cfg, evs).store];
    if k < |before| {
      StepAt(cfg, before, k, id, outcome);
    } else {
      RunKeepsInv(cfg, before);
      KeptLast(cfg, Run(cfg, before), evs[k], Run(cfg, evs).store, id, outcome);
    }
  }

  lemma {:induction false} Chain(cfg: PersonConfig, stores: seq<Store>, evs: seq<Event>, i: nat, id: string, outcome: Outcome)
    requires |stores| == |evs| + 1 && i <= |evs| && Holds(stores[i], id, outcome)
    requires forall k :: i <= k < |evs| && Holds(stores[k], id, outcome) ==>
               (Holds(stores[k + 1], id, outcome) <==> KeepsAt(cfg, stores[k], evs[k], id, outcome))
    ensures (forall k :: i <= k <= |evs| ==> Holds(stores[k], id, outcome))
            <==> (forall k :: i <= k < |evs| ==> KeepsAt(cfg, stores[k], evs[k], id, outcome))
    decreases |evs| - i
  {
    if i < |evs| && Holds(stores[i + 1], id, outcome) {
      Chain(cfg, stores, evs, i + 1, id, outcome);
    }
  }

  /** An outcome stays from call `i` to the end if and only if every call on the way keeps it. */
  lemma OutcomeLastsExactly(cfg: PersonConfig, evs: seq<Event>, i: nat, id: string, outcome: Outcome)
    requires ValidRun(cfg, evs) && i <= |evs| && Holds(Stores(cfg, evs)[i], id, outcome)
    ensures var stores := Stores(cfg, evs);
            (forall k :: i <= k <= |evs| ==> Holds(stores[k], id, outcome))
            <==> (forall k :: i <= k < |evs| ==> KeepsAt(cfg, stores[k], evs[k], id, outcome))
  {
    forall k | i <= k < |evs| && Holds(Stores(cfg, evs)[k], id, outcome)
      ensures Holds(Stores(cfg, evs)[k + 1], id, outcome) <==> KeepsAt(cfg, Stores(cfg, evs)[k], evs[k], id, outcome)
    {
      StepAt(cfg, evs, k, id, outcome);
    }
    Chain(cfg, Stores(cfg, evs), evs, i, id, outcome);
  }

  lemma OneMore(cfg: PersonConfig, evs: seq<Event>, ev: Event)
    requires ValidRun(cfg, evs) && ValidEvent(Run(cfg, evs), ev)
    ensures ValidRun(cfg, evs + [ev]) && Run(cfg, evs + [ev]) == Next(cfg, Run(cfg, evs), ev)
  {
    assert (evs + [ev])[..|evs|] == evs;
  }

  lemma ResumeDenies(cfg: PersonConfig, w: World, id: string, input: PendingInput, env: Env, error: ProtocolError)
    requires id in w.store && !IsExpired(w.store[id], env.now) && w.store[id].context.federation.None?
    requires env.decision == Some(Deny(error))
    ensures Next(cfg, w, Resume(id, input, env)).store == Completed(w.store, id, Failed(error))
  {
  }

  lemma ResumeDefers(cfg: PersonConfig, w: World, id: string, input: PendingInput, env: Env, requirement: Requirement)
    requires id in w.store && !IsExpired(w.store[id], env.now) && w.store[id].context.federation.None?
    requires env.decision == Some(Defer(requirement))
    ensures var store := Next(cfg, w, Resume(id, input, env)).store;
            id in store && store[id].snapshot == WaitFor(requirement)
  {
  }

  /** No race is needed: a second resume replaces the outcome of the first and makes the request wait again. */
  lemma DeniedThenDeferred(
    cfg: PersonConfig, evs: seq<Event>, id: string, input: PendingInput, env: Env, error: ProtocolError, requirement: Requirement)
    requires ValidRun(cfg, evs) && id in Run(cfg, evs).store
    requires !IsExpired(Run(cfg, evs).store[id], env.now) && Run(cfg, evs).store[id].context.federation.None?
    ensures var denied := evs + [Resume(id, input, env.(decision := Some(Deny(error))))];
            && ValidRun(cfg, denied) && Holds(Run(cfg, denied).store, id, Failed(error))
            && var deferred := denied + [Resume(id, input, env.(decision := Some(Defer(requirement))))];
               && ValidRun(cfg, deferred) && id in Run(cfg, deferred).store
               && Run(cfg, deferred).store[id].snapshot == WaitFor(requirement)
  {
    var deny := Resume(id, input, env.(decision := Some(Deny(error))));
    var defer := Resume(id, input, env.(decision := Some(Defer(requirement))));
    OneMore(cfg, evs, deny);
    ResumeDenies(cfg, Run(cfg, evs), id, input, env.(decision := Some(Deny(error))), error);
    OneMore(cfg, evs + [deny], defer);
    ResumeDefers(cfg, Run(cfg, evs + [deny]), id, input, env.(decision := Some(Defer(requirement))), requirement);
  }

  // ----- one run from the start -----

  const KEY := Jwk("OKP", "Ed25519", "x", None, None)
  const THUMB := Thumb("OKP", "Ed25519", "x", None)
  const AGENT_JWT := AgentJwt(Some("k"), AgentClaims("https://agents.example", "aauth-agent.json", "aauth:a@agents.example", "1", KEY, 0, 3600, None, None), KEY)
  const RESOURCE_JWT := ResourceJwt(
    Some("k"), ResourceClaims("https://resource.example", "aauth-resource.json", "https://person.example", "2", "aauth:a@agents.example", THUMB, 0, 300, None, None), KEY)

  /** Everyone publishes the one key, and time stands still. */
  function EnvFor(id: string, decision: Decision): (r: Env) {
    var trust := Trust((_, _) => Some("keys"), _ => Some(map["k" := KEY]), _ => true, _ => true, url => url);
    Env(0, id, [0, 0, 0, 0, 0], Some(decision), None, false, None, None, None, trust, (_, _) => None)
  }

  lemma RequestAccepted(cfg: PersonConfig, id: string, decision: Decision)
    ensures VerifyTokenRequest(cfg, AGENT_JWT, THUMB, ExchangeRequest(RESOURCE_JWT, None), EnvFor(id, decision))
            == Ok(TokenContext(cfg.personServerUrl, cfg.resourceUrl, AGENT_JWT.agentClaims, RESOURCE_JWT.resourceClaims, ExchangeRequest(RESOURCE_JWT, None)))
  {
  }

  /** A request that the policy defers. */
  function Opened(id: string, requirement: Requirement): (r: Event) {
    TokenRequest(AGENT_JWT, THUMB, ExchangeRequest(RESOURCE_JWT, None), EnvFor(id, Defer(requirement)))
  }

  lemma OpenedIsStored(cfg: PersonConfig, id: string, requirement: Requirement)
    ensures ValidRun(cfg, [Opened(id, requirement)])
    ensures var store := Run(cfg, [Opened(id, requirement)]).store;
            id in store && !IsExpired(store[id], 0) && store[id].context.federation.None? && store[id].snapshot == WaitFor(requirement)
  {
    RequestAccepted(cfg, id, Defer(requirement));
    assert [] + [Opened(id, requirement)] == [Opened(id, requirement)];
    OneMore(cfg, [], Opened(id, requirement));
  }

  /** From the start: a request is deferred, denied, and by the next resume made to wait again. */
  lemma DeniedThenDeferredFromStart(cfg: PersonConfig, id: string, input: PendingInput, error: ProtocolError, requirement: Requirement)
    ensures var first := [Opened(id, requirement)];
            var denied := first + [Resume(id, input, EnvFor(id, Deny(error)))];
            && ValidRun(cfg, denied) && Holds(Run(cfg, denied).store, id, Failed(error))
            && var deferred := denied + [Resume(id, input, EnvFor(id, Defer(requirement)))];
               && ValidRun(cfg, deferred) && id in Run(cfg, deferred).store
               && Run(cfg, deferred).store[id].snapshot == WaitFor(requirement)
  {
    OpenedIsStored(cfg, id, requirement);
    var env := EnvFor(id, Deny(error));
    DeniedThenDeferred(cfg, [Opened(id, requirement)], id, input, env, error, requirement);
    assert env.(decision := Some(Deny(error))) == env;
    assert env.(decision := Some(Defer(requirement))) == EnvFor(id, Defer(requirement));
  }
}
