/**
 The agent's retry loop against this repository's own resource layer: when the layer meets
 the conditions under which the loop is proved to end, and what the call then returns.
 */
module AgentMeetsLayer {
  import opened Prelude
  import opened Text
  import opened Tokens
  import opened Deferral
  import opened HttpSignature
  import opened ResourceLayer
  import opened AgentCaches
  import opened AgentLoop
  import opened EndToEnd
  import DeferredWire
  import Headers
  import ResourceGrant
  import SignatureKeys
  import Token68

  // ----- replies as responses; None where the server panics and the connection ends -----

  function Bare(status: nat): (r: Response) { Response(status, [], None, None) }

  function TextOf(value: string): (r: Option<string>) {
    if Readable(value) then Some(value) else None
  }

  function GrantHttp(token: string): (r: Option<Response>) {
    if HeaderBytes(token) then Some(Response(200, [TextOf(token)], None, None)) else None
  }

  function ChallengeHttp(header: string): (r: Option<Response>) {
    if HeaderBytes(header) then Some(Response(401, [], TextOf(header), None)) else None
  }

  function PrintedHttp(p: DeferredWire.Printed): (r: Option<Response>) {
    if p.Panicked? then None
    else Some(Response(p.status, [], DeferredWire.HeaderValue(p.fields, DeferredWire.REQUIREMENT),
                       DeferredWire.HeaderValue(p.fields, DeferredWire.LOCATION)))
  }

  function ConsentHttp(consent: Consent): (r: Option<Response>) {
    match consent
    case GrantOpaque(token) => GrantHttp(token)
    case ConsentDenied(_) => Some(Bare(403))
    case ConsentDeferred(location, requirement) => PrintedHttp(DeferredWire.PrintCreated(location, requirement))
  }

  /** A layer's reply as a response; the handler answers for itself. */
  function HttpOf(reply: LayerReply, handled: Response): (r: Option<Response>) {
    match reply
    case Handler(_) => Some(handled)
    case AgentTokenRequired => ChallengeHttp(Headers.ToHeader(Headers.AgentTokenNeeded))
    case AuthTokenRequired(header) => ChallengeHttp(header)
    case SignatureRefused(_) => Some(Bare(401))
    case TokenRefused(_) => Some(Bare(401))
    case InvalidOpaque => Some(Bare(401))
    case NoAudience => Some(Bare(401))
    case SigningFailed => Some(Bare(401))
    case ServerFailed => Some(Bare(500))
    case Consented(consent) => ConsentHttp(consent)
  }

  function PollHttp(outcome: PollOutcome): (r: Option<Response>) {
    match outcome
    case StillPending(status, requirement) => PrintedHttp(DeferredWire.PrintWaiting(status, requirement))
    case Finished(AuthToken(_)) => Some(Bare(200))
    case Finished(OpaqueAccess(token)) => GrantHttp(token)
    case Finished(Failed(error)) => Some(Bare(DeferredWire.PollingStatus(error)))
    case PollGone => Some(Bare(410))
  }

  /** The status of every reply of the layer's own: refusals and challenges are 401s, and consent decides otherwise. */
  lemma StatusExactly(reply: LayerReply, handled: Response)
    requires !reply.Handler? && HttpOf(reply, handled).Some?
    ensures var status := HttpOf(reply, handled).value.status;
            match reply
            case ServerFailed => status == 500
            case Consented(GrantOpaque(_)) => status == 200
            case Consented(ConsentDenied(_)) => status == 403
            case Consented(ConsentDeferred(_, requirement)) => status == if requirement.Payment? then 500 else 202
            case _ => status == 401
  {
  }

  /** The status of every reply to a poll. */
  lemma PollStatusExactly(outcome: PollOutcome)
    requires PollHttp(outcome).Some?
    ensures var status := PollHttp(outcome).value.status;
            match outcome
            case StillPending(_, requirement) => status == if requirement.Payment? then 500 else 202
            case Finished(AuthToken(_)) => status == 200
            case Finished(OpaqueAccess(_)) => status == 200
            case Finished(Failed(error)) => status == DeferredWire.PollingStatus(error)
            case PollGone => status == 410
  {
  }

  /** A token is granted exactly by a consent that hands one out which a header can carry; a challenge travels as it is. */
  lemma GrantsExactly(reply: LayerReply, handled: Response, token: string)
    requires !reply.Handler? && HttpOf(reply, handled).Some?
    ensures AgentCaches.AccessOf(HttpOf(reply, handled).value) == Some(token)
            <==> reply.Consented? && reply.consent.GrantOpaque? && Readable(reply.consent.token) && Token68.ParseAccessHeader(reply.consent.token) == Some(token)
    ensures reply.AuthTokenRequired? && Readable(reply.requirement) ==> HttpOf(reply, handled).value.requirement == Some(reply.requirement)
  {
  }

  // ----- one agent calling one protected route -----

  /** The resource's store as one poll of a pending id finds it. */
  datatype Visit = Visit(store: ResourceGrant.Store, id: string, now: nat)

  function OutcomeOf(visit: Visit): (r: PollOutcome) {
    ResourceGrant.PolledOnce(visit.store, visit.id, visit.now).1
  }

  /** Polling ends with the first reply that is not a 202; None when time runs out first. */
  function PollEnd(visits: seq<Visit>): (r: Option<Response>) {
    if visits == [] then None
    else
      match PollHttp(OutcomeOf(visits[0]))
      case None => None
      case Some(resp) => if resp.status == 202 then PollEnd(visits[1..]) else Some(resp)
  }

  /** `visits(n)` are the polls of round `n`, as many as there is time for. */
  datatype Meeting = Meeting(
    layer: LayerConfig, envs: nat -> LayerEnv, handled: nat -> Response, visits: nat -> seq<Visit>,
    agent: Agent, agentText: string, parts: Parts, fields: Fields, created: nat -> nat,
    env: AgentLoop.Env)

  function PresentedFor(a: Attempt): (r: Presented) {
    match a
    case AgentSigned => AgentOnly
    case AuthTokenAttempt(token) => WithAuthToken(token)
    case OpaqueAttempt(token) => WithOpaque(token)
  }

  function RequestAt(m: Meeting, n: nat, a: Attempt): (r: Option<Request>) {
    AgentRequest(m.parts, m.fields, m.agentText, m.agent.key, PresentedFor(a), m.created(n))
  }

  /** What the layer makes of a request of round `n`. */
  function HttpAt(m: Meeting, n: nat, req: Request): (r: Option<Response>) {
    HttpOf(ReplyTo(m.layer, m.envs(n), req), m.handled(n))
  }

  function ResponseAt(m: Meeting, n: nat, a: Attempt): (r: Option<Response>) {
    match RequestAt(m, n, a)
    case None => None
    case Some(req) => HttpAt(m, n, req)
  }

  /** The responses are the layer's, the handler's own ones being neither 401 nor 202, and polls are answered from its store. */
  ghost predicate LayerAnswers(m: Meeting) {
    && (forall n: nat, a: Attempt :: m.env.respond(n, a) == ResponseAt(m, n, a))
    && (forall n: nat :: m.handled(n).status !in {401, 202} && m.handled(n).access == [])
    && (forall n: nat, resp: Response :: m.env.respond(n, AgentSigned) == Some(resp) && resp.status == 202 && resp.location.Some? ==>
          m.env.poll(n, resp) == PollEnd(m.visits(n)))
  }

  /** At round `n` the layer takes `token` for a genuine auth token of this agent. */
  predicate GoodAt(m: Meeting, n: nat, token: string) {
    var env := m.envs(n);
    var jwt := env.codec.decode(token);
    && jwt.AuthJwt? && env.codec.encode(jwt) == token && Encodes(env.codec, jwt)
    && SameKey(jwt.authClaims.cnf, m.agent.claims.cnf)
    && Genuine(m.layer, env, jwt, m.agent.jkt, Auth(jwt.authClaims))
    && InWindow(m.created(n), DEFAULT_OPTIONS, env.now)
  }

  /** Tokens obtained in earlier rounds are genuine, and requests reach the layer in time. */
  ghost predicate ExchangesGood(m: Meeting) {
    forall n: nat, k: nat :: k < n && ExchangedAt(m.env, k).Some? ==> GoodAt(m, n, ExchangedAt(m.env, k).value.token)
  }

  lemma AnsweredByLayer(m: Meeting, n: nat, a: Attempt)
    requires LayerAnswers(m) && m.env.respond(n, a).Some?
    ensures RequestAt(m, n, a).Some?
    ensures m.env.respond(n, a) == HttpAt(m, n, RequestAt(m, n, a).value)
  {
  }

  lemma PlainHttp(reply: LayerReply, handled: Response)
    requires !reply.Consented? && handled.status != 202 && handled.access == []
    ensures HttpOf(reply, handled).Some? ==> HttpOf(reply, handled).value.status != 202 && HttpOf(reply, handled).value.access == []
  {
  }

  lemma IssuedIsServed(m: Meeting, n: nat, token: string)
    requires LayerAnswers(m) && !m.layer.mode.IdentityBased? && AgentOk(m.agent) && GoodAt(m, n, token)
    ensures m.env.respond(n, AuthTokenAttempt(token)) == Some(m.handled(n))
  {
    var env := m.envs(n);
    RetryReachesHandler(m.layer, env, env.codec.decode(token), m.agent, m.parts, m.fields, m.agentText, m.created(n));
  }

  lemma AcceptsAuth(m: Meeting)
    requires LayerAnswers(m) && !m.layer.mode.IdentityBased? && AgentOk(m.agent) && ExchangesGood(m)
    ensures forall n: nat, t: string :: Issued(m.env, t, n) ==> Accepts(m.env.respond(n, AuthTokenAttempt(t)))
  {
    forall n: nat, t: string | Issued(m.env, t, n) ensures Accepts(m.env.respond(n, AuthTokenAttempt(t))) {
      var k: nat :| k < n && ExchangedAt(m.env, k).Some? && ExchangedAt(m.env, k).value.token == t;
      IssuedIsServed(m, n, t);
    }
  }

  // ----- a resource that asks for auth tokens -----

  lemma NeverConsents(cfg: LayerConfig, env: LayerEnv, access: Result<Option<string>, ()>, verification: Result<Verified, SignatureError>)
    requires !cfg.mode.ResourceManaged?
    ensures !Decide(cfg, env, access, verification).Consented?
  {
  }

  /** Without consent a reply neither defers nor grants access, unless the handler does. */
  lemma PlainResponse(m: Meeting, n: nat, a: Attempt)
    requires LayerAnswers(m) && m.layer.mode.PsAsserted? && m.env.respond(n, a).Some?
    ensures m.env.respond(n, a).value.status != 202
    ensures m.env.respond(n, a).value.access == []
  {
    AnsweredByLayer(m, n, a);
    var req := RequestAt(m, n, a).value;
    NeverConsents(m.layer, m.envs(n), ResourceLayer.AccessOf(m.layer, req), VerificationOf(m.layer, m.envs(n), req));
    PlainHttp(ReplyTo(m.layer, m.envs(n), req), m.handled(n));
  }

  /** A resource that asks for auth tokens is one the loop converges against, whatever was cached. */
  lemma PsAssertedLayerIsHonest(m: Meeting, cached: set<string>)
    requires LayerAnswers(m) && m.layer.mode.PsAsserted? && AgentOk(m.agent) && ExchangesGood(m)
    ensures Honest(m.env, cached)
  {
    AcceptsAuth(m);
    forall n: nat, a: Attempt ensures m.env.respond(n, a).Some? ==> m.env.respond(n, a).value.status != 202 && m.env.respond(n, a).value.access == [] {
      if m.env.respond(n, a).Some? { PlainResponse(m, n, a); }
    }
    forall n: nat, t: string ensures !Granted(m.env, t, n) {
      forall k: nat, a: Attempt ensures !GrantsAt(m.env, k, a, t) {
      }
    }
  }

  // ----- ... and its call is answered by the handler -----

  /** The layer knows the agent and can challenge it, in time, with a token the agent can read. */
  predicate Challenges(m: Meeting, n: nat, audience: string) {
    var env := m.envs(n);
    && KnownAgent(m.layer, env, m.agent) && m.agentText == env.codec.encode(m.agent.token)
    && env.signerWorks && InWindow(m.created(n), DEFAULT_OPTIONS, env.now)
    && Encodes(env.codec, ResourceToken(m.layer, env, audience, m.agent.claims, m.agent.jkt))
  }

  /** The cached texts decode to auth tokens, and need no quoting. */
  ghost predicate AuthTokensCached(m: Meeting, cached: set<string>) {
    forall n: nat, t: string :: t in cached ==> m.envs(n).codec.decode(t).AuthJwt? && SignatureKeys.Plain(SignatureKeys.JwtKey(t))
  }

  /** What the whole chain needs: a known agent, exchanges that succeed, and cached auth tokens, stale or not, that can be sent. */
  ghost predicate Served(m: Meeting, cached: set<string>, audience: string) {
    && LayerAnswers(m) && m.layer.mode.PsAsserted? && m.layer.mode.requireAuthToken && AgentOk(m.agent)
    && ResolveAudience(m.agent.claims, m.layer.mode) == Some(audience)
    && (forall n: nat :: Challenges(m, n, audience))
    && ExchangesGood(m) && (forall n: nat :: ChallengeAt(m.env, n).Some? ==> ExchangedAt(m.env, n).Some?)
    && AuthTokensCached(m, cached) && (forall t :: t in cached ==> Readable(t))
  }

  lemma ChallengeIsReadable(text: string)
    requires Readable(text)
    ensures Readable(Headers.ToHeader(Headers.AuthTokenNeeded(text)))
  {
    var level, key := Headers.LevelName(Headers.AuthTokenLevel), "resource-token";
    ReadableParts("requirement=", level);
    ReadableParts("requirement=" + level, "; ");
    ReadableParts(key, "=\"");
    ReadableParts(key + "=\"", text);
    ReadableParts(key + "=\"" + text, "\"");
    ReadableParts("requirement=" + level + "; ", Headers.Quoted(key, text));
  }

  lemma ChallengeIsSent(header: string, handled: Response)
    requires Readable(header)
    ensures HttpOf(AuthTokenRequired(header), handled) == Some(Response(401, [], Some(header), None))
  {
    ReadableIsHeaderBytes(header);
  }

  /** Without an auth token the agent is asked for one. */
  lemma ChallengedAt(m: Meeting, audience: string, n: nat, a: Attempt) returns (header: string)
    requires LayerAnswers(m) && m.layer.mode.PsAsserted? && m.layer.mode.requireAuthToken && AgentOk(m.agent)
    requires ResolveAudience(m.agent.claims, m.layer.mode) == Some(audience) && Challenges(m, n, audience)
    requires !a.AuthTokenAttempt?
    ensures m.env.respond(n, a) == Some(Response(401, [], Some(header), None))
    ensures Headers.FromHeader(header)
            == Ok(Headers.AuthTokenNeeded(m.envs(n).codec.encode(ResourceToken(m.layer, m.envs(n), audience, m.agent.claims, m.agent.jkt))))
  {
    var env := m.envs(n);
    var token := ResourceToken(m.layer, env, audience, m.agent.claims, m.agent.jkt);
    header := ChallengeHeader(env, token);
    RequestIsChallenged(m.layer, env, m.agent, m.parts, m.fields, PresentedFor(a), m.created(n), audience);
    ChallengeIsReadable(env.codec.encode(token));
    ChallengeIsSent(header, m.handled(n));
  }

  lemma AuthNotChallenged(cfg: LayerConfig, env: LayerEnv, access: Result<Option<string>, ()>, verification: Result<Verified, SignatureError>)
    requires cfg.mode.PsAsserted?
    requires verification.Ok? && verification.value.jwt.Some? ==> env.codec.decode(verification.value.jwt.value).AuthJwt?
    ensures var reply := Decide(cfg, env, access, verification);
            !reply.AuthTokenRequired? && !reply.AgentTokenRequired? && !reply.Consented? && !reply.ServerFailed?
  {
  }

  lemma AuthRequestVerifiesAsAuth(m: Meeting, n: nat, t: string)
    requires SignatureKeys.Plain(SignatureKeys.JwtKey(t)) && RequestAt(m, n, AuthTokenAttempt(t)).Some?
    ensures var v := VerificationOf(m.layer, m.envs(n), RequestAt(m, n, AuthTokenAttempt(t)).value);
            v.Ok? ==> v.value.jwt == Some(t)
  {
    VerifiedUnderItsToken(
      Message(m.fields, None, None), m.parts, m.agent.key, t, SignExtras(m.fields), DEFAULT_LABEL, m.created(n),
      OptionsFor(ResourceLayer.AccessOf(m.layer, RequestAt(m, n, AuthTokenAttempt(t)).value)), m.envs(n).codec.cnf, m.envs(n).now);
  }

  lemma AuthRequestIsSent(m: Meeting, n: nat, t: string)
    requires Readable(t)
    ensures RequestAt(m, n, AuthTokenAttempt(t)).Some?
  {
    SignExtrasAreTaken(m.fields);
    DistinctComponents(SignExtras(m.fields), m.fields);
    SignatureKeys.JwtHeaderReadable(t, DEFAULT_LABEL);
    ReadableIsHeaderBytes(SignatureKeys.ToHeader(SignatureKeys.JwtKey(t), DEFAULT_LABEL).value);
  }

  lemma PlainReply(reply: LayerReply, handled: Response)
    requires !reply.AuthTokenRequired? && !reply.AgentTokenRequired? && !reply.Consented? && !reply.ServerFailed?
    ensures HttpOf(reply, handled) == Some(handled) || HttpOf(reply, handled) == Some(Bare(401))
  {
  }

  /** A cached auth token is answered by the handler, or refused. */
  lemma CachedIsServedOrRefused(m: Meeting, n: nat, t: string)
    requires LayerAnswers(m) && m.layer.mode.PsAsserted?
    requires m.envs(n).codec.decode(t).AuthJwt? && SignatureKeys.Plain(SignatureKeys.JwtKey(t)) && Readable(t)
    ensures m.env.respond(n, AuthTokenAttempt(t)) == Some(m.handled(n)) || m.env.respond(n, AuthTokenAttempt(t)) == Some(Bare(401))
  {
    AuthRequestIsSent(m, n, t);
    var req := RequestAt(m, n, AuthTokenAttempt(t)).value;
    AuthRequestVerifiesAsAuth(m, n, t);
    AuthNotChallenged(m.layer, m.envs(n), ResourceLayer.AccessOf(m.layer, req), VerificationOf(m.layer, m.envs(n), req));
    PlainReply(ReplyTo(m.layer, m.envs(n), req), m.handled(n));
  }

  lemma KnownIsServedOrRefused(m: Meeting, cached: set<string>, audience: string, n: nat, t: string)
    requires Served(m, cached, audience) && (t in cached || Issued(m.env, t, n))
    ensures m.env.respond(n, AuthTokenAttempt(t)) == Some(m.handled(n)) || m.env.respond(n, AuthTokenAttempt(t)) == Some(Bare(401))
  {
    if t in cached {
      CachedIsServedOrRefused(m, n, t);
    } else {
      var k: nat :| k < n && ExchangedAt(m.env, k).Some? && ExchangedAt(m.env, k).value.token == t;
      IssuedIsServed(m, n, t);
    }
  }

  /** A round whose auth token is served returns the handler's answer; refused, it goes on. */
  lemma AuthRoundEnds(env: AgentLoop.Env, origin: string, n: nat, v: OriginView, s: Scans, handled: Response)
    requires ValidScans(env, n, v, s) && Attempted(v, s.attempt, env.clock(n)).1.AuthTokenAttempt?
    requires env.respond(n, Attempted(v, s.attempt, env.clock(n)).1) in {Some(handled), Some(Bare(401))}
    requires handled.status !in {401, 202}
    ensures RoundOf(env, origin, n, v, s).1 in {Again, Returned(Some(handled))}
  {
  }

  lemma ChallengeSteps(env: AgentLoop.Env, n: nat, v: OriginView, header: string, token: string, first: Option<TokenKey>)
    requires IsFirst(v, first) && Headers.FromHeader(header) == Ok(Headers.AuthTokenNeeded(token))
    requires env.respond(n, AgentSigned) == Some(Response(401, [], Some(header), None))
    ensures Observed(v, AgentSigned, env.respond(n, AgentSigned).value, first) == (v, Ok(ExchangeToken(token)))
    ensures ChallengeAt(env, n) == Some(token)
  {
  }

  lemma OpaqueRefusedSteps(v: OriginView, t: string, resp: Response, first: Option<TokenKey>)
    requires IsFirst(v, first) && resp.status == 401
    ensures Observed(v, OpaqueAttempt(t), resp, first) == (v.(opaqueToken := None), Ok(Invalidate(OpaqueAttempt(t))))
  {
  }

  /** A round without an auth token that is challenged goes on, if its exchange succeeds. */
  lemma ChallengedRoundGoesOn(env: AgentLoop.Env, origin: string, n: nat, v: OriginView, s: Scans, header: string)
    requires ValidScans(env, n, v, s) && !Attempted(v, s.attempt, env.clock(n)).1.AuthTokenAttempt?
    requires env.respond(n, Attempted(v, s.attempt, env.clock(n)).1) == Some(Response(401, [], Some(header), None))
    requires Headers.FromHeader(header).Ok? && Headers.FromHeader(header).value.AuthTokenNeeded?
    requires ChallengeAt(env, n).Some? ==> ExchangedAt(env, n).Some?
    ensures RoundOf(env, origin, n, v, s).1.Again?
  {
    var (v1, attempt) := Attempted(v, s.attempt, env.clock(n));
    if attempt.AgentSigned? {
      ChallengeSteps(env, n, v1, header, Headers.FromHeader(header).value.resourceToken, s.reply);
    } else {
      OpaqueRefusedSteps(v1, attempt.opaqueToken, env.respond(n, attempt).value, s.reply);
    }
  }

  /** Whatever ends a round is the handler's answer. */
  lemma RoundEndsAtHandler(m: Meeting, cached: set<string>, audience: string, origin: string, n: nat, v: OriginView, s: Scans)
    requires Served(m, cached, audience) && Known(m.env, cached, n, v) && ValidScans(m.env, n, v, s)
    ensures RoundOf(m.env, origin, n, v, s).1 in {Again, Returned(Some(m.handled(n)))}
  {
    var attempt := Attempted(v, s.attempt, m.env.clock(n)).1;
    if attempt.AuthTokenAttempt? {
      assert attempt.authToken in Texts(v);
      KnownIsServedOrRefused(m, cached, audience, n, attempt.authToken);
      AuthRoundEnds(m.env, origin, n, v, s, m.handled(n));
    } else {
      assert Challenges(m, n, audience);
      var header := ChallengedAt(m, audience, n, attempt);
      ChallengedRoundGoesOn(m.env, origin, n, v, s, header);
    }
  }

  /** The handler's own response in the last of `rounds` rounds. */
  predicate HandlersAnswer(m: Meeting, rounds: nat, reply: Option<Response>) {
    rounds > 0 && reply == Some(m.handled(rounds - 1))
  }

  lemma EndsAtHandler(m: Meeting, cached: set<string>, audience: string, origin: string, n: nat, reply: Option<Response>)
    requires Served(m, cached, audience) && EndedAt(m.env, origin, cached, n, reply)
    ensures reply == Some(m.handled(n))
  {
    var v, s :| Known(m.env, cached, n, v) && ValidScans(m.env, n, v, s) && RoundOf(m.env, origin, n, v, s).1 == Returned(reply);
    RoundEndsAtHandler(m, cached, audience, origin, n, v, s);
  }

  lemma LastRound(env: AgentLoop.Env, origin: string, cached: set<string>, rounds: nat, reply: Option<Response>) returns (n: nat)
    requires EndedBy(env, origin, cached, rounds, reply)
    ensures rounds == n + 1 && EndedAt(env, origin, cached, n, reply)
  {
    n := rounds - 1;
  }

  lemma AnsweredLast(m: Meeting, rounds: nat, n: nat, reply: Option<Response>)
    requires rounds == n + 1 && reply == Some(m.handled(n))
    ensures HandlersAnswer(m, rounds, reply)
  {
  }

  lemma CallEndsAtHandler(m: Meeting, cached: set<string>, audience: string, origin: string, rounds: nat, reply: Option<Response>)
    requires Served(m, cached, audience) && EndedBy(m.env, origin, cached, rounds, reply)
    ensures HandlersAnswer(m, rounds, reply)
  {
    var n := LastRound(m.env, origin, cached, rounds, reply);
    EndsAtHandler(m, cached, audience, origin, n, reply);
    AnsweredLast(m, rounds, n, reply);
  }

  lemma ServedIsHonest(m: Meeting, cached: set<string>, audience: string)
    requires Served(m, cached, audience)
    ensures Honest(m.env, cached)
  {
    PsAssertedLayerIsHonest(m, cached);
  }

  /**
   The whole call against a resource that asks for auth tokens: whatever the agent has cached,
   once the call starts its first round it returns the handler's own response, within the
   bound of the loop.
   */
  method CallResource(auth: AgentAuth, m: Meeting, origin: string, ghost audience: string, ghost limit: nat)
    returns (reply: Option<Response>, rounds: nat)
    requires auth.Valid()
    requires Served(m, Texts(ViewOf(auth.State(), origin)), audience) && Lasting(m.env, limit)
    requires forall n: nat :: n < 2 * |ViewOf(auth.State(), origin).tokens| + 4 ==> m.env.clock(n) <= limit
    modifies auth
    ensures auth.Valid()
    ensures rounds <= 2 * |ViewOf(old(auth.State()), origin).tokens| + 4
    ensures rounds == 0 <==> Authorizes(m.env, auth.seed, ViewOf(old(auth.State()), origin)) && AuthorizeFails(m.env)
    ensures rounds == 0 ==> reply == None
    ensures rounds > 0 ==> HandlersAnswer(m, rounds, reply)
  {
    ghost var caches := auth.State();
    ghost var cached := Texts(ViewOf(caches, origin));
    ServedIsHonest(m, cached, audience);
    assert auth.State() == caches;
    ghost var start;
    reply, rounds, start := HandleInner(auth, origin, m.env, limit);
    if rounds > 0 {
      CallEndsAtHandler(m, cached, audience, origin, rounds, reply);
    }
  }

  // ----- a resource that manages access itself -----

  /** Opaque tokens granted in earlier rounds are still valid, and requests reach the layer in time. */
  ghost predicate GrantsGood(m: Meeting) {
    forall n: nat, t: string :: Granted(m.env, t, n) ==>
      && m.envs(n).validOpaque(t, m.agent.claims.sub)
      && m.agentText == m.envs(n).codec.encode(m.agent.token) && Encodes(m.envs(n).codec, m.agent.token)
      && InWindow(m.created(n), DEFAULT_OPTIONS, m.envs(n).now)
  }

  lemma GrantedIsToken68(env: AgentLoop.Env, t: string, n: nat)
    requires Granted(env, t, n)
    ensures Token68.IsToken68(t)
  {
  }

  lemma GrantedIsServed(m: Meeting, n: nat, t: string)
    requires LayerAnswers(m) && m.layer.mode.ResourceManaged? && AgentOk(m.agent) && GrantsGood(m) && Granted(m.env, t, n)
    ensures m.env.respond(n, OpaqueAttempt(t)) == Some(m.handled(n))
  {
    GrantedIsToken68(m.env, t, n);
    OpaqueRetryReachesHandler(m.layer, m.envs(n), m.agent, t, m.parts, m.fields, m.created(n));
  }

  /** Whatever follows `AAuth `, the layer takes it for a credential, good or bad. */
  lemma CredentialNotIgnored(token: string)
    ensures ExtractAccess([Some(Token68.CredentialFor(token))]) != Ok(None)
  {
    var c := Token68.CredentialFor(token);
    assert c == "AAuth" + (" " + token);
    assert c[0] == 'A';
    TrimEndKeeps("AAuth", " " + token);
  }

  lemma CredentialGetsNoConsent(cfg: LayerConfig, env: LayerEnv, access: Result<Option<string>, ()>, verification: Result<Verified, SignatureError>)
    requires cfg.mode.ResourceManaged? ==> access != Ok(None)
    ensures !Decide(cfg, env, access, verification).Consented?
  {
  }

  lemma CarriesCredential(m: Meeting, n: nat, t: string)
    requires m.layer.mode.ResourceManaged? && RequestAt(m, n, OpaqueAttempt(t)).Some?
    ensures ResourceLayer.AccessOf(m.layer, RequestAt(m, n, OpaqueAttempt(t)).value) != Ok(None)
  {
    CredentialNotIgnored(t);
    assert RequestAt(m, n, OpaqueAttempt(t)).value.authorization == [Some(Token68.CredentialFor(t))];
  }

  lemma OpaqueNotDeferred(m: Meeting, n: nat, t: string)
    requires LayerAnswers(m) && m.env.respond(n, OpaqueAttempt(t)).Some?
    ensures m.env.respond(n, OpaqueAttempt(t)).value.status != 202
  {
    AnsweredByLayer(m, n, OpaqueAttempt(t));
    var req := RequestAt(m, n, OpaqueAttempt(t)).value;
    if m.layer.mode.ResourceManaged? {
      CarriesCredential(m, n, t);
    }
    CredentialGetsNoConsent(m.layer, m.envs(n), ResourceLayer.AccessOf(m.layer, req), VerificationOf(m.layer, m.envs(n), req));
    PlainHttp(ReplyTo(m.layer, m.envs(n), req), m.handled(n));
  }

  /** A request that verifies under an auth token is not asked to wait for consent. */
  lemma AuthGetsNoConsent(cfg: LayerConfig, env: LayerEnv, access: Result<Option<string>, ()>, verification: Result<Verified, SignatureError>)
    requires verification.Ok? && verification.value.jwt.Some? ==> env.codec.decode(verification.value.jwt.value).AuthJwt?
    ensures !Decide(cfg, env, access, verification).Consented?
  {
  }

  lemma AuthNotDeferred(m: Meeting, n: nat, t: string)
    requires LayerAnswers(m) && m.env.respond(n, AuthTokenAttempt(t)).Some?
    requires m.envs(n).codec.decode(t).AuthJwt? && SignatureKeys.Plain(SignatureKeys.JwtKey(t))
    ensures m.env.respond(n, AuthTokenAttempt(t)).value.status != 202
  {
    AnsweredByLayer(m, n, AuthTokenAttempt(t));
    var req := RequestAt(m, n, AuthTokenAttempt(t)).value;
    AuthRequestVerifiesAsAuth(m, n, t);
    AuthGetsNoConsent(m.layer, m.envs(n), ResourceLayer.AccessOf(m.layer, req), VerificationOf(m.layer, m.envs(n), req));
    PlainHttp(ReplyTo(m.layer, m.envs(n), req), m.handled(n));
  }

  /** Such a resource never asks for an auth token, so none is issued. */
  lemma ManagedNeverChallenges(m: Meeting, n: nat)
    requires LayerAnswers(m) && m.layer.mode.ResourceManaged?
    ensures ChallengeAt(m.env, n).None?
  {
    if m.env.respond(n, AgentSigned).Some? {
      AnsweredByLayer(m, n, AgentSigned);
      var req := RequestAt(m, n, AgentSigned).value;
      NoChallenge(m.layer, m.envs(n), ResourceLayer.AccessOf(m.layer, req), VerificationOf(m.layer, m.envs(n), req));
      RefusalIsBare(ReplyTo(m.layer, m.envs(n), req), m.handled(n));
    }
  }

  lemma NoChallenge(cfg: LayerConfig, env: LayerEnv, access: Result<Option<string>, ()>, verification: Result<Verified, SignatureError>)
    requires cfg.mode.ResourceManaged?
    ensures !Decide(cfg, env, access, verification).AuthTokenRequired? && !Decide(cfg, env, access, verification).AgentTokenRequired?
  {
  }

  lemma RefusalIsBare(reply: LayerReply, handled: Response)
    requires !reply.AuthTokenRequired? && !reply.AgentTokenRequired? && handled.status != 401
    ensures HttpOf(reply, handled).Some? && HttpOf(reply, handled).value.status == 401 ==> HttpOf(reply, handled).value.requirement.None?
  {
  }

  // ----- when deferred consent ends -----

  /** The first poll that finds the request finished finds access granted, with a token that can be handed out. */
  predicate GivesAccess(visits: seq<Visit>) {
    visits != [] &&
    match OutcomeOf(visits[0])
    case StillPending(_, requirement) => !requirement.Payment? && GivesAccess(visits[1..])
    case Finished(OpaqueAccess(token)) => Readable(token) && Token68.ParseAccessHeader(token).Some?
    case _ => false
  }

  lemma WaitingHttp(status: PendingStatus, requirement: Requirement)
    ensures var r := PollHttp(StillPending(status, requirement));
            r.Some? ==> r.value.access == [] && r.value.status == if requirement.Payment? then 500 else 202
  {
  }

  lemma {:induction false} PollEndExactly(visits: seq<Visit>, a: Attempt)
    ensures var end := PollEnd(visits);
            end.Some? ==> end.value.status !in {401, 202}
                          && (EndsWell(a, end.value) <==> GivesAccess(visits))
                          && (GivesAccess(visits) <==> AgentCaches.AccessOf(end.value).Some?)
  {
    if visits != [] {
      var outcome := OutcomeOf(visits[0]);
      if outcome.StillPending? {
        WaitingHttp(outcome.status, outcome.requirement);
      }
      PollEndExactly(visits[1..], a);
    }
  }

  /** Every deferral that polling sees the end of ends in access. */
  ghost predicate ConsentGiven(m: Meeting) {
    forall n: nat :: PolledAt(m.env, n, AgentSigned).Some? ==> GivesAccess(m.visits(n))
  }

  lemma EndsAsConsented(m: Meeting, n: nat, a: Attempt)
    requires LayerAnswers(m) && !a.AuthTokenAttempt? && PolledAt(m.env, n, a).Some?
    ensures a.AgentSigned? && (EndsWell(a, PolledAt(m.env, n, a).value) <==> GivesAccess(m.visits(n)))
  {
    if a.OpaqueAttempt? {
      OpaqueNotDeferred(m, n, a.opaqueToken);
    } else {
      PollEndExactly(m.visits(n), a);
    }
  }

  lemma DeferralsEndExactly(m: Meeting)
    requires LayerAnswers(m)
    ensures DeferralsEnd(m.env) <==> ConsentGiven(m)
  {
    forall n: nat, a: Attempt | !a.AuthTokenAttempt? && PolledAt(m.env, n, a).Some?
      ensures a.AgentSigned? && (EndsWell(a, PolledAt(m.env, n, a).value) <==> GivesAccess(m.visits(n)))
    {
      EndsAsConsented(m, n, a);
    }
  }

  /** A resource that manages access itself is one the loop converges against, exactly when deferred consent is always given in the end. */
  lemma ManagedLayerIsHonest(m: Meeting, cached: set<string>)
    requires LayerAnswers(m) && m.layer.mode.ResourceManaged? && AgentOk(m.agent)
    requires GrantsGood(m) && AuthTokensCached(m, cached)
    ensures Honest(m.env, cached) <==> ConsentGiven(m)
  {
    DeferralsEndExactly(m);
    forall n: nat, t: string | Granted(m.env, t, n) ensures Accepts(m.env.respond(n, OpaqueAttempt(t))) {
      GrantedIsServed(m, n, t);
    }
    forall n: nat ensures ChallengeAt(m.env, n).None? {
      ManagedNeverChallenges(m, n);
    }
    forall n: nat, t: string | t in cached && m.env.respond(n, AuthTokenAttempt(t)).Some?
      ensures m.env.respond(n, AuthTokenAttempt(t)).value.status != 202
    {
      AuthNotDeferred(m, n, t);
    }
  }

  /** What a deferred request comes to: with nothing cached, a consent that is denied, expired or gone leaves the loop where it was. */
  lemma ConsentRound(m: Meeting, origin: string, n: nat, resp: Response, tried: bool)
    requires LayerAnswers(m)
    requires m.env.respond(n, AgentSigned) == Some(resp) && resp.status == 202 && resp.location.Some? && resp.access == []
    ensures var v := OriginView(map[], None, tried);
            && ValidScans(m.env, n, v, Scans(None, None, None))
            && RoundOf(m.env, origin, n, v, Scans(None, None, None))
               == match PollEnd(m.visits(n))
                  case None => (v, Returned(None))
                  case Some(result) => (v.(opaqueToken := AgentCaches.AccessOf(result)), Again)
    ensures PollEnd(m.visits(n)).Some? ==> (AgentCaches.AccessOf(PollEnd(m.visits(n)).value).None? <==> !GivesAccess(m.visits(n)))
  {
    PollEndExactly(m.visits(n), AgentSigned);
    DeferredRound(m.env, origin, n, resp, tried);
  }
}
