/**
 One call of the agent across this repository's own servers: the layer challenges, the
 Person Server grants or federates to the Access Server, and the layer takes the token.
 Nothing is assumed of the tokens that are exchanged; that they are genuine follows from
 how the servers are configured.
 */
module WholeCall {
  import opened Prelude
  import opened Tokens
  import opened Deferral
  import opened HttpSignature
  import opened ResourceLayer
  import opened AgentCaches
  import opened AgentLoop
  import opened EndToEnd
  import opened AgentMeetsLayer
  import opened Text
  import AccessClient
  import AccessServer
  import Headers
  import PersonServer

  /** Who mints: the Person Server itself, or an Access Server that it asks in each round. */
  datatype Route =
    | Local
    | Through(cfg: AccessServer.AccessConfig, stores: nat -> AccessServer.Store, envs: nat -> AccessServer.Env,
              join: string -> string, scope: Option<string>)

  /** The meeting of agent and layer, and what stands behind its exchanges, by round. */
  datatype Network = Network(
    m: Meeting, codec: Codec, audience: string,
    person: PersonServer.PersonConfig, stores: nat -> PersonServer.Store, personEnvs: nat -> PersonServer.Env,
    route: Route, sub: string, jtis: nat -> string,
    personUrl: string, checks: nat -> int, receives: nat -> int, verifySignature: bool, recorded: nat -> nat)

  function SettingAt(w: Network, k: nat): (r: Setting) {
    Setting(w.m.layer, w.m.envs(k), w.m.envs(k), w.m.agent, w.checks(k), w.receives(k), w.verifySignature,
            w.person, w.personEnvs(k), w.sub, w.audience)
  }

  function AccessAt(w: Network, k: nat): (r: AccessSide)
    requires w.route.Through?
  {
    AccessSide(w.route.cfg, w.route.stores(k), w.route.envs(k), w.route.join)
  }

  /** The agent's side of an exchange: check the challenge, ask the Person Server, check what it grants. */
  function ExchangeOf(w: Network, k: nat, resourceToken: string): (r: Option<Exchange>) {
    var a := w.m.agent;
    var token := w.codec.decode(resourceToken);
    match VerifyResourceChallenge(token, a.origin, a.claims.sub, a.jkt, a.trust, w.checks(k))
    case Err(_) => None
    case Ok(claims) =>
      match PersonServer.Requested(w.person, w.stores(k), a.token, a.jkt, PersonServer.ExchangeRequest(token, None), w.personEnvs(k)).1
      case Ok(Granted(body)) =>
        if VerifyClientAuthToken(body.authToken, a.origin, claims.aud, a.claims.sub, a.jkt, a.trust, w.verifySignature, w.receives(k)).Ok?
        then Some(Exchange(w.personUrl, w.codec.encode(body.authToken), body.expiresIn, w.recorded(k)))
        else None
      case _ => None
  }

  // ----- what is minted -----

  function TokenAt(w: Network, k: nat): (r: Jwt) {
    match w.route
    case Local => MintedHere(SettingAt(w, k), w.jtis(k))
    case Through(cfg, _, envs, _, scope) => AccessToken(SettingAt(w, k), cfg, w.sub, scope, envs(k).now, w.jtis(k))
  }

  function MintedAt(w: Network, k: nat): (r: int) {
    if w.route.Local? then w.personEnvs(k).now else w.route.envs(k).now
  }

  function MintKey(w: Network): (r: Jwk) { if w.route.Local? then w.person.key else w.route.cfg.key }

  function MintKid(w: Network): (r: Option<string>) { if w.route.Local? then w.person.kid else w.route.cfg.kid }

  function MintDwk(w: Network): (r: string) { if w.route.Local? then "aauth-person.json" else "aauth-access.json" }

  function MintIss(w: Network): (r: string) { if w.route.Local? then w.person.personServerUrl else w.route.cfg.accessServerUrl }

  function MintAud(w: Network): (r: string) { if w.route.Local? then w.person.resourceUrl else w.route.cfg.resourceUrl }

  /** The Person Server is the audience, and can mint. */
  ghost predicate LocalOk(w: Network, k: nat) {
    var penv, a := w.personEnvs(k), w.m.agent;
    && penv.jti == Some(w.jtis(k)) && penv.trust.lower == a.trust.lower
    && Normalize(a.trust, w.audience) == Normalize(a.trust, w.person.personServerUrl)
    && (w.verifySignature ==> Publishes(a.trust, w.person.personServerUrl, "aauth-person.json", w.person.kid, w.person.key))
    && w.receives(k) <= penv.now + 3660
  }

  /** The Access Server is the audience, grants, and is heard and found by the Person Server. */
  ghost predicate ThroughOk(w: Network, k: nat)
    requires w.route.Through?
  {
    var penv, aenv, cfg := w.personEnvs(k), w.route.envs(k), w.route.cfg;
    && IsAudience(SettingAt(w, k), cfg)
    && Normalize(penv.trust, w.audience) != Normalize(penv.trust, w.person.personServerUrl)
    && aenv.decision == Some(AccessServer.Grant(w.sub, w.route.scope)) && aenv.jti == Some(w.jtis(k))
    && penv.asMetadata && penv.asExchange == AccessClient.ExchangeAnswer(AccessExchanged(SettingAt(w, k), AccessAt(w, k)).1, w.route.join)
    && Publishes(penv.trust, cfg.accessServerUrl, "aauth-access.json", cfg.kid, cfg.key)
    && (w.verifySignature ==> Publishes(w.m.agent.trust, cfg.accessServerUrl, "aauth-access.json", cfg.kid, cfg.key))
    && penv.now <= aenv.now + 3660 && w.receives(k) <= aenv.now + 3660
  }

  ghost predicate RouteOk(w: Network, k: nat) {
    if w.route.Local? then LocalOk(w, k) else ThroughOk(w, k)
  }

  /** Whoever mints, the agent obtains a token minted for it. */
  lemma TokenObtained(w: Network, k: nat)
    requires SettingOk(SettingAt(w, k)) && RouteOk(w, k)
    ensures Obtains(SettingAt(w, k), w.stores(k), TokenAt(w, k))
    ensures MintedFor(TokenAt(w, k), w.m.agent, MintKey(w), MintKid(w), MintDwk(w), MintIss(w), MintAud(w), MintedAt(w, k))
  {
    if w.route.Local? {
      ThreeParties(SettingAt(w, k), w.stores(k), w.jtis(k));
    } else {
      FourParties(SettingAt(w, k), w.stores(k), AccessAt(w, k), w.sub, w.route.scope, w.jtis(k));
    }
  }

  /** The exchange of the token that the layer issues in round `k`. */
  lemma ExchangeGives(w: Network, k: nat)
    requires Obtains(SettingAt(w, k), w.stores(k), TokenAt(w, k)) && TokenOf(SettingAt(w, k)).ResourceJwt?
    requires w.codec.decode(w.codec.encode(TokenOf(SettingAt(w, k)))) == TokenOf(SettingAt(w, k))
    ensures ExchangeOf(w, k, w.codec.encode(TokenOf(SettingAt(w, k))))
            == Some(Exchange(w.personUrl, w.codec.encode(TokenAt(w, k)), 3600, w.recorded(k)))
  {
    var s := SettingAt(w, k);
    assert PersonServer.Requested(s.person, w.stores(k), s.agent.token, s.agent.jkt, PersonServer.ExchangeRequest(TokenOf(s), None), s.personEnv)
        == (w.stores(k), Ok(PersonServer.Granted(TokenResponse(TokenAt(w, k), 3600))));
  }

  // ----- the configuration -----

  /** In each round the servers are configured for each other, and the agent's request reaches the layer in time. */
  ghost predicate RoundOk(w: Network, k: nat) {
    && SettingOk(SettingAt(w, k)) && RouteOk(w, k)
    && w.m.envs(k).codec == w.codec && Encodes(w.codec, TokenAt(w, k))
    && InWindow(w.m.created(k), DEFAULT_OPTIONS, w.m.envs(k).now)
    && Publishes(w.m.envs(k).trust, MintIss(w), MintDwk(w), MintKid(w), MintKey(w))
  }

  /** Tokens minted in earlier rounds have not expired. */
  ghost predicate InTime(w: Network) {
    forall k: nat, n: nat :: k < n ==> w.m.envs(n).now <= MintedAt(w, k) + 3660
  }

  /** What is said by the layer, and what by the servers behind the exchanges. */
  ghost predicate Connected(w: Network) {
    && LayerAnswers(w.m) && w.m.layer.mode.PsAsserted? && w.m.layer.mode.requireAuthToken
    && AgentOk(w.m.agent) && w.m.agentText == w.codec.encode(w.m.agent.token)
    && ResolveAudience(w.m.agent.claims, w.m.layer.mode) == Some(w.audience)
    && (forall k: nat, resourceToken: string :: w.m.env.exchange(k, resourceToken) == ExchangeOf(w, k, resourceToken))
  }

  lemma RoundChallenges(w: Network, k: nat)
    requires RoundOk(w, k) && w.m.agentText == w.codec.encode(w.m.agent.token)
    ensures Challenges(w.m, k, w.audience)
  {
  }

  /** In every round the layer's challenge is exchanged for the token then minted. */
  lemma ExchangedIs(w: Network, k: nat)
    requires Connected(w) && RoundOk(w, k)
    ensures ChallengeAt(w.m.env, k) == Some(w.codec.encode(TokenOf(SettingAt(w, k))))
    ensures ExchangedAt(w.m.env, k) == Some(Exchange(w.personUrl, w.codec.encode(TokenAt(w, k)), 3600, w.recorded(k)))
  {
    var text := w.codec.encode(TokenOf(SettingAt(w, k)));
    RoundChallenges(w, k);
    var header := ChallengedAt(w.m, w.audience, k, AgentSigned);
    ReadsChallenge(w.m.env, k, header, text);
    TokenObtained(w, k);
    ExchangeGives(w, k);
    assert w.m.env.exchange(k, text) == ExchangeOf(w, k, text);
  }

  lemma ReadsChallenge(env: AgentLoop.Env, n: nat, header: string, text: string)
    requires env.respond(n, AgentSigned) == Some(Response(401, [], Some(header), None))
    requires Headers.FromHeader(header) == Ok(Headers.AuthTokenNeeded(text))
    ensures ChallengeAt(env, n) == Some(text)
  {
  }

  /** A token minted in an earlier round is genuine for the layer. */
  lemma MintedIsGood(w: Network, k: nat, n: nat)
    requires RoundOk(w, k) && RoundOk(w, n) && w.m.envs(n).now <= MintedAt(w, k) + 3660
    ensures GoodAt(w.m, n, w.codec.encode(TokenAt(w, k)))
  {
    TokenObtained(w, k);
    SameAudience(w, k);
    MintedIsGenuine(w.m.layer, w.m.envs(n), TokenAt(w, k), w.m.agent, MintKey(w), MintKid(w), MintDwk(w), MintIss(w), MintAud(w), MintedAt(w, k));
  }

  lemma SameAudience(w: Network, k: nat)
    requires SettingOk(SettingAt(w, k)) && RouteOk(w, k)
    ensures SameServer(MintAud(w), w.m.layer.resourceUrl)
  {
  }

  ghost predicate NetworkOk(w: Network) {
    Connected(w) && InTime(w) && forall k: nat :: RoundOk(w, k)
  }

  lemma ExchangedInRound(w: Network, k: nat)
    requires NetworkOk(w)
    ensures ExchangedAt(w.m.env, k) == Some(Exchange(w.personUrl, w.codec.encode(TokenAt(w, k)), 3600, w.recorded(k)))
  {
    assert RoundOk(w, k);
    ExchangedIs(w, k);
  }

  lemma GoodInRound(w: Network, k: nat, n: nat)
    requires NetworkOk(w) && k < n
    ensures GoodAt(w.m, n, w.codec.encode(TokenAt(w, k)))
  {
    assert RoundOk(w, k) && RoundOk(w, n);
    MintedIsGood(w, k, n);
  }

  lemma ChallengesInRound(w: Network, k: nat)
    requires NetworkOk(w)
    ensures Challenges(w.m, k, w.audience)
  {
    assert RoundOk(w, k);
    RoundChallenges(w, k);
  }

  /** Every token exchanged in the run is genuine: this is proved of the servers, not assumed of the exchange. */
  lemma NetworkExchangesGood(w: Network)
    requires NetworkOk(w)
    ensures ExchangesGood(w.m)
  {
    forall n: nat, k: nat | k < n && ExchangedAt(w.m.env, k).Some? ensures GoodAt(w.m, n, ExchangedAt(w.m.env, k).value.token) {
      ExchangedInRound(w, k);
      GoodInRound(w, k, n);
    }
  }

  lemma NetworkServes(w: Network, cached: set<string>)
    requires NetworkOk(w) && AuthTokensCached(w.m, cached) && forall t :: t in cached ==> Readable(t)
    ensures Served(w.m, cached, w.audience)
  {
    NetworkExchangesGood(w);
    forall n: nat ensures Challenges(w.m, n, w.audience) && ExchangedAt(w.m.env, n).Some? {
      ChallengesInRound(w, n);
      ExchangedInRound(w, n);
    }
  }

  lemma NetworkLasts(w: Network, limit: nat)
    requires NetworkOk(w) && forall k: nat :: w.recorded(k) + 3540 * SECOND > limit
    ensures Lasting(w.m.env, limit)
  {
    forall k: nat | ExchangedAt(w.m.env, k).Some?
      ensures var x := ExchangedAt(w.m.env, k).value; x.recordedAt + x.expiresIn * SECOND > limit + 60 * SECOND
    {
      ExchangedInRound(w, k);
      assert w.recorded(k) + 3540 * SECOND > limit;
    }
  }

  /**
   One call across the whole network. Whatever the agent has cached, once the call starts
   its first round it returns the handler's own response, within the bound of the loop.
   */
  method CallThroughServers(auth: AgentAuth, w: Network, ghost limit: nat) returns (reply: Option<Response>, rounds: nat)
    requires auth.Valid() && NetworkOk(w)
    requires AuthTokensCached(w.m, Texts(ViewOf(auth.State(), w.m.agent.origin)))
    requires forall t :: t in Texts(ViewOf(auth.State(), w.m.agent.origin)) ==> Readable(t)
    requires forall n: nat :: n < 2 * |ViewOf(auth.State(), w.m.agent.origin).tokens| + 4 ==> w.m.env.clock(n) <= limit
    requires forall k: nat :: w.recorded(k) + 3540 * SECOND > limit
    modifies auth
    ensures auth.Valid()
    ensures rounds <= 2 * |ViewOf(old(auth.State()), w.m.agent.origin).tokens| + 4
    ensures rounds == 0 <==> Authorizes(w.m.env, auth.seed, ViewOf(old(auth.State()), w.m.agent.origin)) && AuthorizeFails(w.m.env)
    ensures rounds == 0 ==> reply == None
    ensures rounds > 0 ==> HandlersAnswer(w.m, rounds, reply)
  {
    NetworkServes(w, Texts(ViewOf(auth.State(), w.m.agent.origin)));
    NetworkLasts(w, limit);
    reply, rounds := CallResource(auth, w.m, w.m.agent.origin, w.audience, limit);
  }
}
