/**
 A resource that manages access itself: consent, deferral until consent is given, and the
 opaque tokens that stand for it.
 */
module ResourceGrant {
  import opened Prelude
  import opened Tokens
  import opened Deferral
  import opened PendingStore
  import opened InteractionCode
  import ResourceLayer

  // ----- opaque tokens -----

  datatype OpaqueEvent = Issued(token: string, agent: string) | Revoked(token: string)

  /** Whom a token stands for, going by the last thing that happened to it. */
  function HolderOf(log: seq<OpaqueEvent>, token: string): (r: Option<string>) {
    if log == [] then None
    else
      match log[|log| - 1]
      case Issued(t, agent) => if t == token then Some(agent) else HolderOf(log[..|log| - 1], token)
      case Revoked(t) => if t == token then None else HolderOf(log[..|log| - 1], token)
  }

  class InMemoryOpaqueAccessStore {
    var tokens: map<string, string>
    ghost var log: seq<OpaqueEvent>

    ghost predicate Valid()
      reads this
    {
      forall token :: HolderOf(log, token) == if token in tokens then Some(tokens[token]) else None
    }

    constructor ()
      ensures Valid() && log == []
    {
      tokens, log := map[], [];
    }

    /** `token` is the text drawn at random. */
    method Issue(agent: string, token: string) returns (issued: string)
      requires Valid()
      modifies this
      ensures Valid() && log == old(log) + [Issued(token, agent)] && issued == token
    {
      tokens := tokens[token := agent];
      log := log + [Issued(token, agent)];
      issued := token;
    }

    method Validate(token: string, agent: string) returns (ok: bool)
      requires Valid()
      ensures ok <==> HolderOf(log, token) == Some(agent)
    {
      ok := token in tokens && tokens[token] == agent;
    }

    method Revoke(token: string)
      requires Valid()
      modifies this
      ensures Valid() && log == old(log) + [Revoked(token)]
    {
      tokens := tokens - {token};
      log := log + [Revoked(token)];
    }
  }

  predicate About(ev: OpaqueEvent, token: string) {
    ev.token == token
  }

  /** Event `i` of the log is the last about the token, and issues it to the agent. */
  predicate LastIssue(log: seq<OpaqueEvent>, token: string, agent: string, i: int) {
    0 <= i < |log| && log[i] == Issued(token, agent) && forall j :: i < j < |log| ==> !About(log[j], token)
  }

  lemma LastIssueBefore(log: seq<OpaqueEvent>, token: string, agent: string, i: int)
    requires log != [] && !About(log[|log| - 1], token)
    ensures LastIssue(log, token, agent, i) <==> LastIssue(log[..|log| - 1], token, agent, i)
  {
    var n := |log| - 1;
    var before := log[..n];
    if LastIssue(before, token, agent, i) {
      forall j | i < j < |log| ensures !About(log[j], token) { if j < n { assert log[j] == before[j]; } }
    }
    if LastIssue(log, token, agent, i) {
      assert i != n;
      forall j | i < j < n ensures !About(before[j], token) { assert before[j] == log[j]; }
    }
  }

  /** The holder is the agent of the last event about the token, when that event is an issue. */
  lemma {:induction false} HolderIsLastIssue(log: seq<OpaqueEvent>, token: string, agent: string)
    ensures HolderOf(log, token) == Some(agent) <==> exists i :: LastIssue(log, token, agent, i)
  {
    if log != [] {
      var n := |log| - 1;
      if About(log[n], token) {
        assert log[n] == Issued(token, agent) ==> LastIssue(log, token, agent, n);
        assert forall i :: LastIssue(log, token, agent, i) ==> i == n;
      } else {
        HolderIsLastIssue(log[..n], token, agent);
        forall i ensures LastIssue(log, token, agent, i) <==> LastIssue(log[..n], token, agent, i) {
          LastIssueBefore(log, token, agent, i);
        }
      }
    }
  }

  // ----- consent -----

  datatype ResourceContext = ResourceContext(resourceUrl: string, agentClaims: AgentClaims, scope: Option<string>)

  datatype ResourceConfig = ResourceConfig(interactionUrl: string, pendingBaseUrl: string, pendingPath: string, ttl: nat)

  type Store = Records<ResourceContext>

  datatype ConsentDecision = GrantOpaqueDecision | DenyDecision(error: ProtocolError) | DeferDecision(requirement: Requirement)

  /** What one call learns from outside; a policy that fails has no decision. */
  datatype Env = Env(now: nat, freshId: string, codeBytes: CodeBytes, opaqueToken: string, decision: Option<ConsentDecision>)

  /** An interaction left blank is completed with the resource's page and a fresh code. */
  function Filled(cfg: ResourceConfig, requirement: Requirement, bytes: CodeBytes): (r: Requirement) {
    match requirement
    case Interaction(url, code) =>
      Interaction(if url == "" then cfg.interactionUrl else url, if code == "" then CodeOfBytes(bytes) else code)
    case _ => requirement
  }

  type ConsentReply = Option<ResourceLayer.Consent>

  function Consented(cfg: ResourceConfig, store: Store, ctx: ResourceContext, env: Env): (r: (Store, ConsentReply)) {
    match env.decision
    case None => (store, None)
    case Some(GrantOpaqueDecision) => (store, Some(ResourceLayer.GrantOpaque(env.opaqueToken)))
    case Some(DenyDecision(error)) => (store, Some(ResourceLayer.ConsentDenied(error)))
    case Some(DeferDecision(requirement)) =>
      var filled := Filled(cfg, requirement, env.codeBytes);
      (store[env.freshId := NewRecord(env.freshId, ctx, Waiting(Pending, filled), cfg.ttl, env.now)],
       Some(ResourceLayer.ConsentDeferred(PendingUrl(cfg.pendingBaseUrl, cfg.pendingPath, env.freshId), filled)))
  }

  predicate Success(outcome: PollOutcome) {
    outcome.Finished? && !outcome.outcome.Failed?
  }

  /** A poll that delivers a success forgets the request. */
  function PolledOnce(store: Store, id: string, now: nat): (r: (Store, PollOutcome)) {
    var (store', outcome) := Polled(store, id, now);
    (if Success(outcome) then Removed(store', id) else store', outcome)
  }

  class PolicyResourceAccessService {
    const config: ResourceConfig
    const pending: InMemoryPendingStore<ResourceContext>
    const opaqueStore: InMemoryOpaqueAccessStore

    constructor (config: ResourceConfig, pending: InMemoryPendingStore<ResourceContext>, opaqueStore: InMemoryOpaqueAccessStore)
      ensures this.config == config && this.pending == pending && this.opaqueStore == opaqueStore
    {
      this.config, this.pending, this.opaqueStore := config, pending, opaqueStore;
    }

    method CreateDeferred(ctx: ResourceContext, requirement: Requirement, env: Env) returns (reply: ResourceLayer.Consent)
      modifies pending
      ensures var filled := Filled(config, requirement, env.codeBytes);
              && pending.records == old(pending.records)[env.freshId := NewRecord(env.freshId, ctx, Waiting(Pending, filled), config.ttl, env.now)]
              && reply == ResourceLayer.ConsentDeferred(PendingUrl(config.pendingBaseUrl, config.pendingPath, env.freshId), filled)
    {
      var filled := requirement;
      if filled.Interaction? {
        if filled.url == "" {
          filled := filled.(url := config.interactionUrl);
        }
        if filled.code == "" {
          var code := GenerateCode(env.codeBytes);
          filled := filled.(code := code);
        }
      }
      var id := pending.Create(NewRecord(env.freshId, ctx, Waiting(Pending, filled), config.ttl, env.now));
      reply := ResourceLayer.ConsentDeferred(PendingUrl(config.pendingBaseUrl, config.pendingPath, id), filled);
    }

    method ConsentForAgent(ctx: ResourceContext, env: Env) returns (reply: ConsentReply)
      requires opaqueStore.Valid()
      modifies pending, opaqueStore
      ensures opaqueStore.Valid()
      ensures (pending.records, reply) == Consented(config, old(pending.records), ctx, env)
      ensures opaqueStore.log
              == if env.decision == Some(GrantOpaqueDecision) then old(opaqueStore.log) + [Issued(env.opaqueToken, ctx.agentClaims.sub)]
                 else old(opaqueStore.log)
    {
      if env.decision.None? {
        return None;
      }
      match env.decision.value
      case GrantOpaqueDecision =>
        var token := opaqueStore.Issue(ctx.agentClaims.sub, env.opaqueToken);
        reply := Some(ResourceLayer.GrantOpaque(token));
      case DenyDecision(error) =>
        reply := Some(ResourceLayer.ConsentDenied(error));
      case DeferDecision(requirement) =>
        var deferred := CreateDeferred(ctx, requirement, env);
        reply := Some(deferred);
    }

    method PollPending(id: string, now: nat) returns (outcome: PollOutcome)
      modifies pending
      ensures (pending.records, outcome) == PolledOnce(old(pending.records), id, now)
    {
      outcome := PollAuthPending(pending, id, now);
      if outcome.Finished? && (outcome.outcome.OpaqueAccess? || outcome.outcome.AuthToken?) {
        pending.Remove(id);
      }
    }

    method ValidateOpaque(token: string, agent: string) returns (ok: bool)
      requires opaqueStore.Valid()
      ensures ok <==> HolderOf(opaqueStore.log, token) == Some(agent)
    {
      ok := opaqueStore.Validate(token, agent);
    }
  }

  /** A blank interaction becomes one that can be shown: with a page, and with a code of the usual form. */
  lemma FilledIsUsable(cfg: ResourceConfig, requirement: Requirement, bytes: CodeBytes)
    requires cfg.interactionUrl != ""
    ensures var filled := Filled(cfg, requirement, bytes);
            && (filled.Interaction? <==> requirement.Interaction?)
            && (filled.Interaction? ==> filled.url != "" && filled.code != "" && (requirement.code == "" ==> IsCode(filled.code)))
  {
    CodeShape(Value(256, bytes));
  }

  // ----- runs -----

  /** Completion is whatever finishes the request on the resource's side. */
  datatype Event =
    | ConsentEvent(ctx: ResourceContext, env: Env)
    | PollEvent(id: string, now: nat)
    | CompleteEvent(id: string, outcome: Outcome)

  datatype World = World(store: Store, used: set<string>)

  const START := World(map[], {})

  /** Ids are fresh. */
  predicate ValidEvent(w: World, ev: Event) {
    ev.ConsentEvent? ==> ev.env.freshId !in w.used
  }

  function Next(cfg: ResourceConfig, w: World, ev: Event): (r: World) {
    match ev
    case ConsentEvent(ctx, env) => World(Consented(cfg, w.store, ctx, env).0, w.used + {env.freshId})
    case PollEvent(id, now) => w.(store := PolledOnce(w.store, id, now).0)
    case CompleteEvent(id, outcome) => w.(store := Completed(w.store, id, outcome))
  }

  predicate ValidRun(cfg: ResourceConfig, evs: seq<Event>)
    decreases |evs|, 0
  {
    evs == [] || (ValidRun(cfg, evs[..|evs| - 1]) && ValidEvent(Run(cfg, evs[..|evs| - 1]), evs[|evs| - 1]))
  }

  function Run(cfg: ResourceConfig, evs: seq<Event>): (r: World)
    requires ValidRun(cfg, evs)
    decreases |evs|, 1
  {
    if evs == [] then START else Next(cfg, Run(cfg, evs[..|evs| - 1]), evs[|evs| - 1])
  }

  function PollResult(cfg: ResourceConfig, w: World, ev: Event): (r: PollOutcome)
    requires ev.PollEvent?
  {
    PolledOnce(w.store, ev.id, ev.now).1
  }

  lemma {:induction false} StoredIdsAreUsed(cfg: ResourceConfig, evs: seq<Event>)
    requires ValidRun(cfg, evs)
    ensures Run(cfg, evs).store.Keys <= Run(cfg, evs).used
  {
    if evs != [] { StoredIdsAreUsed(cfg, evs[..|evs| - 1]); }
  }

  /** An id that was used and is no longer stored never comes back. */
  lemma {:induction false} GoneStaysGone(cfg: ResourceConfig, evs: seq<Event>, i: nat, id: string)
    requires ValidRun(cfg, evs) && i <= |evs| && ValidRun(cfg, evs[..i])
    requires id in Run(cfg, evs[..i]).used && id !in Run(cfg, evs[..i]).store
    ensures id in Run(cfg, evs).used && id !in Run(cfg, evs).store
  {
    if i == |evs| {
      assert evs[..i] == evs;
    } else {
      assert evs[..|evs| - 1][..i] == evs[..i];
      GoneStaysGone(cfg, evs[..|evs| - 1], i, id);
    }
  }

  lemma {:induction false} PrefixValid(cfg: ResourceConfig, evs: seq<Event>, i: nat)
    requires ValidRun(cfg, evs) && i <= |evs|
    ensures ValidRun(cfg, evs[..i])
  {
    if i == |evs| {
      assert evs[..i] == evs;
    } else {
      assert evs[..|evs| - 1][..i] == evs[..i];
      PrefixValid(cfg, evs[..|evs| - 1], i);
    }
  }

  /** A success is delivered once: every later poll of the same id answers Gone. */
  lemma SuccessIsDeliveredOnce(cfg: ResourceConfig, evs: seq<Event>, i: nat, j: nat)
    requires ValidRun(cfg, evs) && i < j < |evs|
    requires evs[i].PollEvent? && evs[j].PollEvent? && evs[i].id == evs[j].id
    requires ValidRun(cfg, evs[..i]) && Success(PollResult(cfg, Run(cfg, evs[..i]), evs[i]))
    ensures ValidRun(cfg, evs[..j]) && PollResult(cfg, Run(cfg, evs[..j]), evs[j]) == PollGone
  {
    var id := evs[i].id;
    PrefixValid(cfg, evs, i + 1);
    PrefixValid(cfg, evs, j);
    assert evs[..i + 1][..i] == evs[..i];
    StoredIdsAreUsed(cfg, evs[..i]);
    assert evs[..j][..i + 1] == evs[..i + 1];
    GoneStaysGone(cfg, evs[..j], i + 1, id);
  }

  /** Only a blank page and a blank code are filled in. */
  lemma FilledExactly(cfg: ResourceConfig, requirement: Requirement, bytes: CodeBytes)
    ensures var filled := Filled(cfg, requirement, bytes);
            && (!requirement.Interaction? ==> filled == requirement)
            && (requirement.Interaction? ==>
                  && filled.Interaction?
                  && filled.url == (if requirement.url == "" then cfg.interactionUrl else requirement.url)
                  && (requirement.code != "" ==> filled.code == requirement.code)
                  && (requirement.code == "" ==> IsCode(filled.code) && DecodeCode(filled.code) == bytes))
  {
    CodeShape(Value(256, bytes));
    BytesRoundTrip(bytes);
  }

  /** Consent is given, refused, deferred or fails as the policy says; a deferral can be polled at its location, and nothing else is stored. */
  lemma ConsentAnswers(cfg: ResourceConfig, store: Store, ctx: ResourceContext, env: Env, token: string, error: ProtocolError, requirement: Requirement)
    ensures var (store', reply) := Consented(cfg, store, ctx, env);
            && (reply == Some(ResourceLayer.GrantOpaque(token)) <==> env.decision == Some(GrantOpaqueDecision) && token == env.opaqueToken)
            && (reply == Some(ResourceLayer.ConsentDenied(error)) <==> env.decision == Some(DenyDecision(error)))
            && (reply == None <==> env.decision == None)
            && (env.decision == Some(DeferDecision(requirement)) ==>
                  && reply.Some? && reply.value.ConsentDeferred? && reply.value.requirement == Filled(cfg, requirement, env.codeBytes)
                  && reply.value.location == PendingUrl(cfg.pendingBaseUrl, cfg.pendingPath, env.freshId)
                  && (forall now: nat :: now <= env.now + cfg.ttl ==>
                        Polled(store', env.freshId, now).1 == StillPending(Pending, reply.value.requirement)))
            && store' == if reply.Some? && reply.value.ConsentDeferred? then store[env.freshId := store'[env.freshId]] else store
  {
  }

  /** A poll reports what is stored, and forgets a request exactly when it has expired or its success is delivered. */
  lemma PollExactly(store: Store, id: string, now: nat)
    ensures var (store', outcome) := PolledOnce(store, id, now);
            var live := id in store && now <= store[id].expiresAt;
            && outcome == (if live then PollOf(store[id].snapshot) else PollGone)
            && store' == if live && (store[id].snapshot.Waiting? || store[id].snapshot.outcome.Failed?) then store else store - {id}
  {
    if id !in store {
      assert store - {id} == store;
    }
  }
}
