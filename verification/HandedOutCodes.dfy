/**
 The code a user is shown. It is the code the request was stored under, so that every way
 of writing it finds the request, from the exchange until the code is used up, the request
 is handed to an Access Server, or it is forgotten; and the page it leads to is the one the
 resource asked for.
 */
module HandedOutCodes {
  import opened Prelude
  import opened Text
  import opened Tokens
  import opened Deferral
  import opened PendingStore
  import opened InteractionCode
  import opened PersonServer
  import opened PersonRuns
  import opened PersonAnswers

  /** A lookup of this text may return the record. */
  predicate Finds(store: Store, id: string, text: string) {
    id in store && Matches(store[id], Canonicalize(text))
  }

  /** The record's code is this one, and has not been used. */
  predicate Holds(store: Store, id: string, code: string) {
    id in store && store[id].context.code == Some(code) && !store[id].context.codeConsumed
  }

  /** A record is found by exactly the respellings of its code, and whatever follows them. */
  lemma FoundBySpelling(store: Store, id: string, code: string, text: string)
    requires Holds(store, id, code) && IsCode(code) && Ascii(text)
    ensures Finds(store, id, text) <==> |Strip(text, '-')| >= 8 && Respells(Strip(text, '-')[..8], code)
    ensures Respells(text, code) ==> Finds(store, id, text)
  {
    CanonicalizeMatches(text, code);
    if Respells(text, code) {
      RespellingFindsCode(text, code);
    }
  }

  /** A good request with an interaction claim is answered with a fresh code, under which its record is stored. */
  lemma CodeIsHandedOut(cfg: PersonConfig, store: Store, agentJwt: Jwt, agentJkt: Thumb, request: ExchangeRequest, env: Env)
    requires RequestOk(agentJwt, agentJkt, request, env) && AsksInteraction(request)
    ensures var (store', reply) := Requested(cfg, store, agentJwt, agentJkt, request, env);
            && reply.Ok? && reply.value.Deferred?
            && FreshCode(cfg, env, reply.value.requirement)
            && Holds(store', env.freshId, reply.value.requirement.code)
            && store'[env.freshId].expiresAt == env.now + cfg.ttl
            && store'[env.freshId].context.resourceInteraction == request.resourceToken.resourceClaims.interaction
  {
    var code := CodeOfBytes(env.codeBytes);
    var requirement := Interaction(cfg.interactionUrl, code);
    var location := PendingUrl(cfg.pendingBaseUrl, cfg.pendingPath, env.freshId);
    FreshCodeExactly(cfg, env, requirement);
    RequestDeferred(cfg, store, agentJwt, agentJkt, request, env, location, requirement);
    DeferredIsStored(cfg, store, agentJwt, agentJkt, request, env, location, requirement);
  }

  /** ... and whichever way users write the code they were shown, that record is found. */
  lemma ShownCodeFinds(
    cfg: PersonConfig, store: Store, agentJwt: Jwt, agentJkt: Thumb, request: ExchangeRequest, env: Env, location: string, url: string, code: string, text: string)
    requires AsksInteraction(request) && Ascii(text)
    requires Requested(cfg, store, agentJwt, agentJkt, request, env).1 == Ok(Deferred(location, Interaction(url, code)))
    ensures IsCode(code) && url == cfg.interactionUrl
    ensures Finds(Requested(cfg, store, agentJwt, agentJkt, request, env).0, env.freshId, text)
            <==> |Strip(text, '-')| >= 8 && Respells(Strip(text, '-')[..8], code)
  {
    RequestDeferred(cfg, store, agentJwt, agentJkt, request, env, location, Interaction(url, code));
    CodeIsHandedOut(cfg, store, agentJwt, agentJkt, request, env);
    FoundBySpelling(Requested(cfg, store, agentJwt, agentJkt, request, env).0, env.freshId, code, text);
  }

  // ----- how long -----

  /** The calls after which a request that lives until `expiresAt` is no longer found by its code. */
  predicate Loses(ev: Event, id: string, expiresAt: nat) {
    match ev
    case TokenRequest(_, _, _, _) => false
    case PollEvent(polled, now) => polled == id && now > expiresAt
    case Resume(resumed, _, env) => resumed == id && (env.now > expiresAt || HandsOver(env))
    case Begin(_, found, _) => found == Some(id)
    case Callback(called, error, env) => called == id && (env.now > expiresAt || (error.None? && HandsOver(env)))
  }

  /** The policy hands the request to an Access Server, which waits. */
  predicate HandsOver(env: Env) {
    env.decision == Some(Federate) && env.asMetadata && env.asExchange.Some? && env.asExchange.value.AsDeferred?
  }

  lemma PolledHolds(store: Store, id: string, code: string, now: nat)
    requires Holds(store, id, code)
    ensures Holds(Polled(store, id, now).0, id, code) <==> now <= store[id].expiresAt
    ensures now <= store[id].expiresAt ==> Polled(store, id, now).0[id] == store[id]
  {
  }

  /** A decision keeps the code unless it hands the request over. */
  lemma DecidedHolds(cfg: PersonConfig, store: Store, id: string, ctx: TokenContext, env: Env, code: string)
    requires Holds(store, id, code) && ctx.request.resourceToken.ResourceJwt?
    ensures var store' := Decided(cfg, store, id, ctx, store[id].context.agentToken, env).0;
            && id in store' && store'[id].expiresAt == store[id].expiresAt
            && (Holds(store', id, code) <==> !HandsOver(env))
            && (!HandsOver(env) ==> store'[id].context == store[id].context)
  {
    DecisionLeaves(cfg, store, id, ctx, env);
  }

  /** The record as far as lookups go is as it was. */
  predicate StillHeld(store: Store, store': Store, id: string)
    requires id in store
  {
    id in store' && store'[id].context == store[id].context && store'[id].expiresAt == store[id].expiresAt
  }

  /** One call either takes the code away or leaves everything about it as it is. */
  lemma StepHolds(cfg: PersonConfig, w: World, ev: Event, id: string, code: string)
    requires Inv(cfg, w) && ValidEvent(w, ev) && Holds(w.store, id, code)
    ensures if Loses(ev, id, w.store[id].expiresAt) then !Holds(Next(cfg, w, ev).store, id, code)
            else StillHeld(w.store, Next(cfg, w, ev).store, id)
  {
    StepIsRel(cfg, w, ev);
    if Target(ev) == id {
      match ev
      case TokenRequest(_, _, _, env) =>
      case PollEvent(_, now) => PolledHolds(w.store, id, code, now);
      case Resume(_, input, env) => ResumedHolds(cfg, w, id, input, env, code);
      case Begin(_, found, env) => BegunHolds(cfg, w, ev, id, code);
      case Callback(_, error, env) => CalledBackHolds(cfg, w, id, error, env, code);
    }
  }

  lemma BegunHolds(cfg: PersonConfig, w: World, ev: Event, id: string, code: string)
    requires Inv(cfg, w) && ValidEvent(w, ev) && ev.Begin? && Target(ev) == id && Holds(w.store, id, code)
    ensures if ev.found == Some(id) then !Holds(Next(cfg, w, ev).store, id, code) else StillHeld(w.store, Next(cfg, w, ev).store, id)
  {
    if ev.found == Some(id) {
      LookupExactly(cfg, w.store, id, ev.env);
    }
  }

  lemma ResumedHolds(cfg: PersonConfig, w: World, id: string, input: PendingInput, env: Env, code: string)
    requires Inv(cfg, w) && Holds(w.store, id, code)
    ensures var store' := Resumed(cfg, w.store, id, input, env).0;
            if Loses(Resume(id, input, env), id, w.store[id].expiresAt) then !Holds(store', id, code) else StillHeld(w.store, store', id)
  {
    ResumeExactly(cfg, w.store, id, input, env);
    DecidedHolds(cfg, w.store, id, ContextOf(w.store[id].context), env, code);
  }

  lemma CalledBackHolds(cfg: PersonConfig, w: World, id: string, error: Option<string>, env: Env, code: string)
    requires Inv(cfg, w) && Holds(w.store, id, code)
    ensures var store' := CalledBack(cfg, w.store, id, error, env).0;
            if Loses(Callback(id, error, env), id, w.store[id].expiresAt) then !Holds(store', id, code) else StillHeld(w.store, store', id)
  {
    CallbackExactly(cfg, w.store, id, error, env);
    DecidedHolds(cfg, w.store, id, WithoutInteraction(ContextOf(w.store[id].context)), env, code);
  }

  /** What was lost is not found again. */
  lemma StepLoses(cfg: PersonConfig, w: World, ev: Event, id: string, code: string)
    requires Inv(cfg, w) && ValidEvent(w, ev) && id in w.openings && !Holds(w.store, id, code)
    ensures !Holds(Next(cfg, w, ev).store, id, code)
  {
    StepIsRel(cfg, w, ev);
  }

  /** Event `i` is a good request with an interaction claim, that was answered with this code. */
  predicate HandedOutAt(cfg: PersonConfig, evs: seq<Event>, i: nat, code: string)
    requires ValidRun(cfg, evs) && i < |evs| && ValidRun(cfg, evs[..i])
  {
    && evs[i].TokenRequest? && AsksInteraction(evs[i].request)
    && var reply := Requested(cfg, Run(cfg, evs[..i]).store, evs[i].agentJwt, evs[i].agentJkt, evs[i].request, evs[i].env).1;
       reply.Ok? && reply.value.Deferred? && reply.value.requirement == Interaction(cfg.interactionUrl, code)
  }

  /** None of the calls from `i` on, up to the end, loses it. */
  predicate KeptSince(evs: seq<Event>, i: nat, id: string, expiresAt: nat) {
    forall k :: i < k < |evs| ==> !Loses(evs[k], id, expiresAt)
  }

  /** The record is held with this lifetime, for this claim. */
  predicate HeldFor(store: Store, id: string, code: string, expiresAt: nat, claim: Option<InteractionClaim>) {
    Holds(store, id, code) && store[id].expiresAt == expiresAt && store[id].context.resourceInteraction == claim
  }

  function ClaimOf(ev: Event): (r: Option<InteractionClaim>) {
    if ev.TokenRequest? && ev.request.resourceToken.ResourceJwt? then ev.request.resourceToken.resourceClaims.interaction else None
  }

  function ExpiryOf(cfg: PersonConfig, ev: Event): (r: nat)
    requires ev.TokenRequest?
  {
    ev.env.now + cfg.ttl
  }

  lemma HeldAtFirst(cfg: PersonConfig, evs: seq<Event>, i: nat, code: string)
    requires ValidRun(cfg, evs) && i < |evs| && ValidRun(cfg, evs[..i]) && ValidRun(cfg, evs[..i + 1]) && HandedOutAt(cfg, evs, i, code)
    ensures var (id, w) := (evs[i].env.freshId, Run(cfg, evs[..i + 1]));
            IsCode(code) && id in w.openings && HeldFor(w.store, id, code, ExpiryOf(cfg, evs[i]), ClaimOf(evs[i]))
  {
    var TokenRequest(agentJwt, agentJkt, request, env) := evs[i];
    var store := Run(cfg, evs[..i]).store;
    var reply := Requested(cfg, store, agentJwt, agentJkt, request, env).1;
    RequestDeferred(cfg, store, agentJwt, agentJkt, request, env, reply.value.location, reply.value.requirement);
    CodeIsHandedOut(cfg, store, agentJwt, agentJkt, request, env);
    assert evs[..i + 1][..i] == evs[..i];
  }

  lemma StepHeldFor(cfg: PersonConfig, w: World, ev: Event, id: string, code: string, expiresAt: nat, claim: Option<InteractionClaim>)
    requires Inv(cfg, w) && ValidEvent(w, ev) && id in w.openings
    requires HeldFor(w.store, id, code, expiresAt, claim) || !Holds(w.store, id, code)
    ensures var store' := Next(cfg, w, ev).store;
            if Holds(w.store, id, code) && !Loses(ev, id, expiresAt) then HeldFor(store', id, code, expiresAt, claim)
            else !Holds(store', id, code)
    ensures id in Next(cfg, w, ev).openings
  {
    StepIsRel(cfg, w, ev);
    if Holds(w.store, id, code) {
      StepHolds(cfg, w, ev, id, code);
    } else {
      StepLoses(cfg, w, ev, id, code);
    }
  }

  lemma {:induction false} HeldSince(
    cfg: PersonConfig, evs: seq<Event>, i: nat, id: string, code: string, expiresAt: nat, claim: Option<InteractionClaim>)
    requires ValidRun(cfg, evs) && i < |evs| && ValidRun(cfg, evs[..i + 1])
    requires id in Run(cfg, evs[..i + 1]).openings && HeldFor(Run(cfg, evs[..i + 1]).store, id, code, expiresAt, claim)
    ensures var w := Run(cfg, evs);
            && id in w.openings
            && if KeptSince(evs, i, id, expiresAt) then HeldFor(w.store, id, code, expiresAt, claim) else !Holds(w.store, id, code)
  {
    var n := |evs| - 1;
    if i == n {
      assert evs[..i + 1] == evs;
    } else {
      var before := evs[..n];
      assert before[..i + 1] == evs[..i + 1];
      HeldSince(cfg, before, i, id, code, expiresAt, claim);
      RunKeepsInv(cfg, before);
      StepHeldFor(cfg, Run(cfg, before), evs[n], id, code, expiresAt, claim);
      KeptOneMore(evs, i, id, expiresAt);
    }
  }

  /** In every run the record is held under the code that was handed out exactly until some call loses it. */
  lemma HeldUntilLost(cfg: PersonConfig, evs: seq<Event>, i: nat, code: string)
    requires ValidRun(cfg, evs) && i < |evs| && ValidRun(cfg, evs[..i]) && HandedOutAt(cfg, evs, i, code)
    ensures IsCode(code)
    ensures var id := evs[i].env.freshId;
            if KeptSince(evs, i, id, ExpiryOf(cfg, evs[i])) then HeldFor(Run(cfg, evs).store, id, code, ExpiryOf(cfg, evs[i]), ClaimOf(evs[i]))
            else !Holds(Run(cfg, evs).store, id, code)
  {
    var id, expiresAt, claim := evs[i].env.freshId, ExpiryOf(cfg, evs[i]), ClaimOf(evs[i]);
    PrefixValid(cfg, evs, i + 1);
    HeldAtFirst(cfg, evs, i, code);
    HeldSince(cfg, evs, i, id, code, expiresAt, claim);
  }

  lemma KeptOneMore(evs: seq<Event>, i: nat, id: string, expiresAt: nat)
    requires i < |evs| - 1
    ensures KeptSince(evs, i, id, expiresAt)
            <==> KeptSince(evs[..|evs| - 1], i, id, expiresAt) && !Loses(evs[|evs| - 1], id, expiresAt)
  {
    var before := evs[..|evs| - 1];
    assert forall k :: i < k < |before| ==> before[k] == evs[k];
  }

  /** So users find their request by the code they were shown, however they write it, exactly until some call loses it. */
  lemma ShownCodeFindsUntilLost(cfg: PersonConfig, evs: seq<Event>, i: nat, code: string, text: string)
    requires ValidRun(cfg, evs) && i < |evs| && ValidRun(cfg, evs[..i]) && HandedOutAt(cfg, evs, i, code)
    requires Ascii(text) && Respells(text, code)
    ensures Finds(Run(cfg, evs).store, evs[i].env.freshId, text)
            <==> KeptSince(evs, i, evs[i].env.freshId, ExpiryOf(cfg, evs[i]))
  {
    HeldUntilLost(cfg, evs, i, code);
    RespellingFindsCode(text, code);
  }

  /** While it is held, and the code was drawn only once, a lookup finds this very request and leads to the page the resource asked for. */
  lemma ShownCodeLeadsToThePage(cfg: PersonConfig, evs: seq<Event>, i: nat, code: string, text: string, found: Option<string>, env: Env)
    requires ValidRun(cfg, evs) && i < |evs| && ValidRun(cfg, evs[..i]) && HandedOutAt(cfg, evs, i, code)
    requires Ascii(text) && Respells(text, code) && Run(cfg, evs).created[code] <= 1
    requires KeptSince(evs, i, evs[i].env.freshId, ExpiryOf(cfg, evs[i])) && env.now <= ExpiryOf(cfg, evs[i])
    requires ValidEvent(Run(cfg, evs), Begin(text, found, env))
    ensures found == Some(evs[i].env.freshId)
    ensures Begun(cfg, Run(cfg, evs).store, found, env).1
            == match env.redirect(evs[i].request.resourceToken.resourceClaims.interaction.value,
                                  TrimSlash(cfg.interactionUrl) + "/callback?id=" + evs[i].env.freshId)
               case None => Err(InvalidInteractionUrl)
               case Some(url) => Ok(Redirect(url))
  {
    var w, id := Run(cfg, evs), evs[i].env.freshId;
    HeldUntilLost(cfg, evs, i, code);
    RespellingFindsCode(text, code);
    RunKeepsConserved(cfg, evs);
    assert w.hits[code] + |Live(w.store, code)| <= w.created[code];
    assert id in Live(w.store, code);
    if found.Some? {
      OnlyOne(Live(w.store, code), id, found.value);
    }
    LookupExactly(cfg, w.store, id, env);
  }

  lemma OnlyOne<T>(s: set<T>, a: T, b: T)
    requires |s| <= 1 && a in s && b in s
    ensures a == b
  {
    if a != b {
      SubsetSize({a, b}, s);
    }
  }
}
