/**
 The parties together: the checks that the resource, the agent, the Person Server and the
 Access Server make on each other's tokens compose. Every party has its own clock and its
 own discovery; what they share is the keys that issuers publish.
 */
module EndToEnd {
  import opened Prelude
  import opened Text
  import opened Tokens
  import opened Deferral
  import opened PendingStore
  import opened HttpSignature
  import opened ResourceLayer
  import AccessClient
  import AccessServer
  import DeferredWire
  import Headers
  import PersonServer
  import SignatureKeys
  import Token68

  // ----- what parties rely on -----

  function CnfOf(jwt: Jwt): (r: Option<Jwk>) {
    match jwt
    case AgentJwt(_, c, _) => Some(c.cnf)
    case AuthJwt(_, c, _) => Some(c.cnf)
    case ResourceJwt(_, _, _) => None
    case Malformed(_) => None
  }

  /** The compact form of a token says what the token says, and is plain text. */
  predicate Encodes(codec: Codec, jwt: Jwt) {
    && codec.decode(codec.encode(jwt)) == jwt
    && codec.cnf(codec.encode(jwt)) == CnfOf(jwt)
    && SignatureKeys.Plain(SignatureKeys.JwtKey(codec.encode(jwt))) && Readable(codec.encode(jwt))
  }

  // ----- the agent's requests -----

  datatype Presented = AgentOnly | WithAuthToken(token: string) | WithOpaque(token: string)

  function FieldsFor(fields: Fields, p: Presented): (r: Fields) {
    if p.WithOpaque? then fields["authorization" := Token68.CredentialFor(p.token)] else fields
  }

  /** A request signed with the agent's key, naming the agent token or the auth token it presents. */
  function AgentRequest(parts: Parts, fields: Fields, agentText: string, key: Jwk, p: Presented, created: nat): (r: Option<Request>) {
    var fs := FieldsFor(fields, p);
    var text := if p.WithAuthToken? then p.token else agentText;
    match Signed(Message(fs, None, None), parts, SigningMaterial(key, SignatureKeys.JwtKey(text)), SignExtras(fs), DEFAULT_LABEL, created)
    case Err(_) => None
    case Ok(m) => Some(Request(parts, m, if p.WithOpaque? then [Some(fs["authorization"])] else []))
  }

  /** Such a request verifies under the agent's key while it is fresh. */
  lemma AgentRequestVerifies(
    parts: Parts, fields: Fields, agentText: string, key: Jwk, p: Presented, created: nat,
    cnf: string -> Option<Jwk>, jkt: Thumb, options: VerifyOptions, now: nat)
    requires var text := if p.WithAuthToken? then p.token else agentText;
             && SignatureKeys.Plain(SignatureKeys.JwtKey(text)) && Readable(text)
             && cnf(text).Some? && SameKey(key, cnf(text).value) && Thumbprint(cnf(text).value) == Some(jkt)
    requires options.tag == None && InWindow(created, options, now)
    requires options.requireAuthorization ==> p.WithOpaque?
    ensures var req := AgentRequest(parts, fields, agentText, key, p, created);
            var text := if p.WithAuthToken? then p.token else agentText;
            && req.Some? && req.value.parts == parts
            && Verification(req.value.message, parts, options, cnf, now)
               == Ok(Verified(DEFAULT_LABEL, SignatureKeys.JwtKey(text), cnf(text).value, jkt, Some(text)))
  {
    var fs := FieldsFor(fields, p);
    var text := if p.WithAuthToken? then p.token else agentText;
    var material := SigningMaterial(key, SignatureKeys.JwtKey(text));
    SignExtrasAreTaken(fs);
    SignatureKeys.JwtHeaderReadable(text, DEFAULT_LABEL);
    ReadableIsHeaderBytes(SignatureKeys.ToHeader(material.signatureKey, DEFAULT_LABEL).value);
    if p.WithOpaque? {
      assert fs["authorization"] == Token68.CredentialFor(p.token);
    }
    VerifiesWhatWasSigned(Message(fs, None, None), parts, material, SignExtras(fs), DEFAULT_LABEL, created, options, cnf, now);
  }

  // ----- the setting -----

  datatype Agent = Agent(token: Jwt, claims: AgentClaims, key: Jwk, jkt: Thumb, trust: Trust, origin: string)

  predicate AgentOk(a: Agent) {
    && Parse(a.token) == Ok(ParsedToken.Agent(a.claims))
    && SameKey(a.key, a.claims.cnf) && Thumbprint(a.claims.cnf) == Some(a.jkt)
  }

  /** The resource accepts the agent's own token at its time. */
  predicate KnownAgent(cfg: LayerConfig, env: LayerEnv, a: Agent) {
    Genuine(cfg, env, a.token, a.jkt, ParsedToken.Agent(a.claims)) && Encodes(env.codec, a.token)
  }

  predicate SameServer(a: string, b: string) { TrimSlash(a) == TrimSlash(b) }

  // ----- the challenge -----

  /** A request without an auth token is answered with a challenge that the agent can read back. */
  lemma RequestIsChallenged(cfg: LayerConfig, env: LayerEnv, a: Agent, parts: Parts, fields: Fields, p: Presented, created: nat, audience: string)
    requires !p.WithAuthToken?
    requires AgentOk(a) && KnownAgent(cfg, env, a)
    requires cfg.mode.PsAsserted? && cfg.mode.requireAuthToken && env.signerWorks
    requires ResolveAudience(a.claims, cfg.mode) == Some(audience)
    requires InWindow(created, DEFAULT_OPTIONS, env.now)
    requires Encodes(env.codec, ResourceToken(cfg, env, audience, a.claims, a.jkt))
    ensures var token := ResourceToken(cfg, env, audience, a.claims, a.jkt);
            var req := AgentRequest(parts, fields, env.codec.encode(a.token), a.key, p, created);
            && req.Some?
            && ReplyTo(cfg, env, req.value) == AuthTokenRequired(ChallengeHeader(env, token))
            && Headers.FromHeader(ChallengeHeader(env, token)) == Ok(Headers.AuthTokenNeeded(env.codec.encode(token)))
            && env.codec.decode(env.codec.encode(token)) == token
  {
    var text := env.codec.encode(a.token);
    var token := ResourceToken(cfg, env, audience, a.claims, a.jkt);
    AgentRequestVerifies(parts, fields, text, a.key, p, created, env.codec.cnf, a.jkt, DEFAULT_OPTIONS, env.now);
    var req := AgentRequest(parts, fields, text, a.key, p, created).value;
    var v := Verified(DEFAULT_LABEL, SignatureKeys.JwtKey(text), a.claims.cnf, a.jkt, Some(text));
    VerificationIsWellSigned(cfg, env, req, v);
    AudienceExactly(a.claims, cfg.mode, audience);
    assert Tells(cfg, env, a.claims, a.jkt, audience, ChallengeHeader(env, token));
    assert IsChallenged(cfg, env, req, v, ChallengeHeader(env, token));
    ChallengedWith(cfg, env, req, ChallengeHeader(env, token));
    Headers.ChallengeRoundTrip(Headers.AuthTokenNeeded(env.codec.encode(token)));
  }

  lemma PublishedKeyVerifies(trust: Trust, iss: string, dwk: string, kid: Option<string>, key: Jwk, jwt: Jwt)
    requires Publishes(trust, iss, dwk, kid, key) && Kid(jwt) == kid
    requires !jwt.Malformed? && (jwt.ResourceJwt? ==> jwt.resourceSigner == key) && (jwt.AuthJwt? ==> jwt.authSigner == key)
    requires !jwt.AgentJwt?
    ensures IssuerSigned(iss, dwk, trust, jwt)
  {
  }

  /** A party that finds the resource's key accepts its token for the agent and key it names, for 300 s and the skew. */
  lemma ResourceTokenAccepted(cfg: LayerConfig, env: LayerEnv, audience: string, claims: AgentClaims, jkt: Thumb, trust: Trust, now: int)
    requires Publishes(trust, cfg.resourceUrl, "aauth-resource.json", cfg.kid, cfg.key)
    ensures var token := ResourceToken(cfg, env, audience, claims, jkt);
            var r := VerifyResourceToken(token, Some(claims.sub), Some(jkt), trust, now);
            && (r.Ok? <==> now <= env.now + RESOURCE_TOKEN_LIFETIME + CLOCK_SKEW)
            && (r.Ok? ==> r == Ok(token.resourceClaims))
  {
    var token := ResourceToken(cfg, env, audience, claims, jkt);
    PublishedKeyVerifies(trust, cfg.resourceUrl, "aauth-resource.json", cfg.kid, cfg.key, token);
  }

  // ----- the auth token -----

  /** An auth token minted for this agent, by a server whose key both sides find. */
  predicate MintedFor(jwt: Jwt, a: Agent, key: Jwk, kid: Option<string>, dwk: string, iss: string, aud: string, at: int) {
    && jwt.AuthJwt? && jwt.authClaims.sub.Some?
    && jwt == EncodeAuthJwt(key, kid, dwk, iss, aud, a.claims.sub, a.claims.cnf, jwt.authClaims.sub, jwt.authClaims.scope, at, jwt.authClaims.jti)
  }

  lemma AgentAcceptsAuthToken(
    jwt: Jwt, a: Agent, key: Jwk, kid: Option<string>, dwk: string, iss: string, aud: string, at: int,
    resourceTokenAud: string, verifySignature: bool, now: int)
    requires AgentOk(a) && MintedFor(jwt, a, key, kid, dwk, iss, aud, at)
    requires Normalize(a.trust, iss) == Normalize(a.trust, resourceTokenAud) && SameServer(aud, a.origin)
    requires verifySignature ==> Publishes(a.trust, iss, dwk, kid, key)
    ensures VerifyClientAuthToken(jwt, a.origin, resourceTokenAud, a.claims.sub, a.jkt, a.trust, verifySignature, now).Ok?
            <==> now <= at + AUTH_TOKEN_LIFETIME + CLOCK_SKEW
  {
    TrimmedImpliesNormalized(aud, a.origin, a.trust);
    if verifySignature {
      PublishedKeyVerifies(a.trust, iss, dwk, kid, key, jwt);
    }
  }

  lemma MintedIsGenuine(
    cfg: LayerConfig, env: LayerEnv, jwt: Jwt, a: Agent, key: Jwk, kid: Option<string>, dwk: string, iss: string, aud: string, at: int)
    requires AgentOk(a) && MintedFor(jwt, a, key, kid, dwk, iss, aud, at)
    requires SameServer(aud, cfg.resourceUrl) && Publishes(env.trust, iss, dwk, kid, key)
    requires env.now <= at + AUTH_TOKEN_LIFETIME + CLOCK_SKEW
    ensures Genuine(cfg, env, jwt, a.jkt, Auth(jwt.authClaims))
  {
    TrimmedImpliesNormalized(aud, cfg.resourceUrl, env.trust);
    PublishedKeyVerifies(env.trust, iss, dwk, kid, key, jwt);
  }

  /** The signed retry reaches the handler with the auth token's claims. */
  lemma RetryReachesHandler(
    cfg: LayerConfig, env: LayerEnv, jwt: Jwt, a: Agent, parts: Parts, fields: Fields, agentText: string, created: nat)
    requires AgentOk(a) && jwt.AuthJwt? && SameKey(jwt.authClaims.cnf, a.claims.cnf) && Encodes(env.codec, jwt)
    requires !cfg.mode.IdentityBased? && Genuine(cfg, env, jwt, a.jkt, Auth(jwt.authClaims))
    requires InWindow(created, DEFAULT_OPTIONS, env.now)
    ensures var req := AgentRequest(parts, fields, agentText, a.key, WithAuthToken(env.codec.encode(jwt)), created);
            req.Some? && ReplyTo(cfg, env, req.value) == Handler(Auth(jwt.authClaims))
  {
    var text := env.codec.encode(jwt);
    AgentRequestVerifies(parts, fields, agentText, a.key, WithAuthToken(text), created, env.codec.cnf, a.jkt, DEFAULT_OPTIONS, env.now);
    var req := AgentRequest(parts, fields, agentText, a.key, WithAuthToken(text), created).value;
    var v := Verified(DEFAULT_LABEL, SignatureKeys.JwtKey(text), jwt.authClaims.cnf, a.jkt, Some(text));
    VerificationIsWellSigned(cfg, env, req, v);
    assert Entitles(cfg, env, req, v, Auth(jwt.authClaims));
    ReachesHandler(cfg, env, req, Auth(jwt.authClaims));
  }

  lemma CredentialExtracted(token: string)
    requires Token68.IsToken68(token)
    ensures ExtractAccess([Some(Token68.CredentialFor(token))]) == Ok(Some(token))
  {
    Token68.GrantedThenPresented(token);
    Token68.Token68HasNoSpaceAtEnds(token);
    var c := Token68.CredentialFor(token);
    assert c[0] == 'A' && c[|c| - 1] == token[|token| - 1];
    assert Trim(c) == c && "AAuth" <= c;
  }

  lemma PresentsOpaque(req: Request, token: string)
    requires Token68.IsToken68(token) && req.authorization == [Some(Token68.CredentialFor(token))]
    ensures Presents(req, token) && PresentsCredential(req)
  {
    CredentialExtracted(token);
    ExtractExactly(req, token);
  }

  lemma CredentialServes(cfg: LayerConfig, env: LayerEnv, req: Request, v: Verified, token: string, claims: AgentClaims)
    requires cfg.mode.ResourceManaged? && Presents(req, token) && PresentsCredential(req) && WellSigned(cfg, env, req, v)
    requires v.jwt.Some? && env.codec.decode(v.jwt.value).AgentJwt? && env.codec.decode(v.jwt.value).agentClaims == claims
    requires env.validOpaque(token, claims.sub)
    ensures ReplyTo(cfg, env, req) == Handler(ParsedToken.Agent(claims))
  {
    assert Entitles(cfg, env, req, v, ParsedToken.Agent(claims));
    ReachesHandler(cfg, env, req, ParsedToken.Agent(claims));
  }

  /** At a resource that manages access itself, a granted opaque token serves the agent it was granted to. */
  lemma OpaqueRetryReachesHandler(
    cfg: LayerConfig, env: LayerEnv, a: Agent, token: string, parts: Parts, fields: Fields, created: nat)
    requires AgentOk(a) && cfg.mode.ResourceManaged? && Encodes(env.codec, a.token)
    requires Token68.IsToken68(token) && env.validOpaque(token, a.claims.sub)
    requires InWindow(created, DEFAULT_OPTIONS, env.now)
    ensures var req := AgentRequest(parts, fields, env.codec.encode(a.token), a.key, WithOpaque(token), created);
            req.Some? && ReplyTo(cfg, env, req.value) == Handler(ParsedToken.Agent(a.claims))
  {
    var text := env.codec.encode(a.token);
    var options := DEFAULT_OPTIONS.(requireAuthorization := true);
    AgentRequestVerifies(parts, fields, text, a.key, WithOpaque(token), created, env.codec.cnf, a.jkt, options, env.now);
    var req := AgentRequest(parts, fields, text, a.key, WithOpaque(token), created).value;
    var v := Verified(DEFAULT_LABEL, SignatureKeys.JwtKey(text), a.claims.cnf, a.jkt, Some(text));
    PresentsOpaque(req, token);
    VerificationExactly(req.message, parts, options, env.codec.cnf, env.now, v);
    CredentialServes(cfg, env, req, v, token, a.claims);
  }

  // ----- the person server and the access server -----

  /** The policy that grants whatever is addressed to this Person Server and federates the rest. */
  function AlwaysGrant(trust: Trust, cfg: PersonServer.PersonConfig, claims: ResourceClaims, sub: string): (r: PersonServer.Decision) {
    if Normalize(trust, claims.aud) == Normalize(trust, cfg.personServerUrl) then PersonServer.Grant(sub, claims.scope)
    else PersonServer.Federate
  }

  datatype Setting = Setting(
    layer: LayerConfig, first: LayerEnv, retry: LayerEnv,
    agent: Agent, agentChecks: int, agentReceives: int, verifySignature: bool,
    person: PersonServer.PersonConfig, personEnv: PersonServer.Env, sub: string, audience: string)

  function TokenOf(s: Setting): (r: Jwt) {
    ResourceToken(s.layer, s.first, s.audience, s.agent.claims, s.agent.jkt)
  }

  /** Configured URLs agree, keys are found, and the resource token is used while it lives. */
  predicate SettingOk(s: Setting) {
    && AgentOk(s.agent) && KnownAgent(s.layer, s.first, s.agent)
    && s.layer.mode.PsAsserted? && s.layer.mode.requireAuthToken && s.first.signerWorks && s.first.interaction.None?
    && ResolveAudience(s.agent.claims, s.layer.mode) == Some(s.audience)
    && SameServer(s.layer.resourceUrl, s.agent.origin) && SameServer(s.person.resourceUrl, s.agent.origin)
    && Publishes(s.agent.trust, s.layer.resourceUrl, "aauth-resource.json", s.layer.kid, s.layer.key)
    && Publishes(s.personEnv.trust, s.layer.resourceUrl, "aauth-resource.json", s.layer.kid, s.layer.key)
    && s.agentChecks <= s.first.now + 360 && s.personEnv.now <= s.first.now + 360
    && Encodes(s.first.codec, TokenOf(s))
    && s.personEnv.decision == Some(AlwaysGrant(s.personEnv.trust, s.person, TokenOf(s).resourceClaims, s.sub))
  }

  /** The agent accepts the challenge, the Person Server grants, the agent accepts the grant. */
  ghost predicate Obtains(s: Setting, store: PersonServer.Store, authToken: Jwt) {
    && VerifyResourceChallenge(TokenOf(s), s.agent.origin, s.agent.claims.sub, s.agent.jkt, s.agent.trust, s.agentChecks)
       == Ok(TokenOf(s).resourceClaims)
    && (forall justification ::
          PersonServer.Requested(s.person, store, s.agent.token, s.agent.jkt, PersonServer.ExchangeRequest(TokenOf(s), justification), s.personEnv)
          == (store, Ok(PersonServer.Granted(TokenResponse(authToken, 3600)))))
    && VerifyClientAuthToken(authToken, s.agent.origin, s.audience, s.agent.claims.sub, s.agent.jkt, s.agent.trust, s.verifySignature, s.agentReceives).Ok?
  }

  lemma ChallengeAccepted(s: Setting)
    requires SettingOk(s)
    ensures VerifyResourceChallenge(TokenOf(s), s.agent.origin, s.agent.claims.sub, s.agent.jkt, s.agent.trust, s.agentChecks)
            == Ok(TokenOf(s).resourceClaims)
    ensures VerifyResourceToken(TokenOf(s), Some(s.agent.claims.sub), Some(s.agent.jkt), s.personEnv.trust, s.personEnv.now)
            == Ok(TokenOf(s).resourceClaims)
  {
    ResourceTokenAccepted(s.layer, s.first, s.audience, s.agent.claims, s.agent.jkt, s.agent.trust, s.agentChecks);
    ResourceTokenAccepted(s.layer, s.first, s.audience, s.agent.claims, s.agent.jkt, s.personEnv.trust, s.personEnv.now);
    TrimmedImpliesNormalized(s.layer.resourceUrl, s.agent.origin, s.agent.trust);
  }

  function ContextFor(s: Setting, justification: Option<string>): (r: PersonServer.TokenContext) {
    PersonServer.TokenContext(s.person.personServerUrl, s.person.resourceUrl, s.agent.claims, TokenOf(s).resourceClaims,
                              PersonServer.ExchangeRequest(TokenOf(s), justification))
  }

  /** The Person Server takes the request for what it is, and exchanges it. */
  lemma RequestIsExchanged(s: Setting, store: PersonServer.Store, justification: Option<string>)
    requires SettingOk(s)
    requires VerifyResourceToken(TokenOf(s), Some(s.agent.claims.sub), Some(s.agent.jkt), s.personEnv.trust, s.personEnv.now) == Ok(TokenOf(s).resourceClaims)
    ensures PersonServer.Requested(s.person, store, s.agent.token, s.agent.jkt, PersonServer.ExchangeRequest(TokenOf(s), justification), s.personEnv)
            == PersonServer.Exchanged(s.person, store, ContextFor(s, justification), s.agent.token, s.personEnv)
  {
  }

  lemma PersonGrants(s: Setting, store: PersonServer.Store, jti: string, justification: Option<string>)
    requires SettingOk(s) && s.personEnv.jti == Some(jti) && s.personEnv.decision == Some(PersonServer.Grant(s.sub, None))
    requires VerifyResourceToken(TokenOf(s), Some(s.agent.claims.sub), Some(s.agent.jkt), s.personEnv.trust, s.personEnv.now) == Ok(TokenOf(s).resourceClaims)
    ensures PersonServer.Requested(s.person, store, s.agent.token, s.agent.jkt, PersonServer.ExchangeRequest(TokenOf(s), justification), s.personEnv)
            == (store, Ok(PersonServer.Granted(TokenResponse(MintedHere(s, jti), 3600))))
  {
    RequestIsExchanged(s, store, justification);
  }

  function MintedHere(s: Setting, jti: string): (r: Jwt) {
    EncodeAuthJwt(s.person.key, s.person.kid, "aauth-person.json", s.person.personServerUrl, s.person.resourceUrl,
                  s.agent.claims.sub, s.agent.claims.cnf, Some(s.sub), None, s.personEnv.now, jti)
  }

  /** Three parties: the audience is the Person Server itself, which mints. */
  lemma ThreeParties(s: Setting, store: PersonServer.Store, jti: string)
    requires SettingOk(s) && s.personEnv.jti == Some(jti)
    requires s.personEnv.trust.lower == s.agent.trust.lower
    requires Normalize(s.agent.trust, s.audience) == Normalize(s.agent.trust, s.person.personServerUrl)
    requires s.verifySignature ==> Publishes(s.agent.trust, s.person.personServerUrl, "aauth-person.json", s.person.kid, s.person.key)
    requires s.agentReceives <= s.personEnv.now + 3660
    ensures var authToken := MintedHere(s, jti);
            Obtains(s, store, authToken)
            && MintedFor(authToken, s.agent, s.person.key, s.person.kid, "aauth-person.json", s.person.personServerUrl, s.person.resourceUrl, s.personEnv.now)
  {
    ChallengeAccepted(s);
    var authToken := MintedHere(s, jti);
    forall justification
      ensures PersonServer.Requested(s.person, store, s.agent.token, s.agent.jkt, PersonServer.ExchangeRequest(TokenOf(s), justification), s.personEnv)
              == (store, Ok(PersonServer.Granted(TokenResponse(authToken, 3600))))
    {
      PersonGrants(s, store, jti, justification);
    }
    AgentAcceptsAuthToken(authToken, s.agent, s.person.key, s.person.kid, "aauth-person.json", s.person.personServerUrl,
                          s.person.resourceUrl, s.personEnv.now, s.audience, s.verifySignature, s.agentReceives);
  }

  /** An exchange that the policy hands to an Access Server that answers at once, or waits. */
  lemma ExchangeFederates(cfg: PersonServer.PersonConfig, store: PersonServer.Store, ctx: PersonServer.TokenContext, agentJwt: Jwt, env: PersonServer.Env, audience: string)
    requires ctx.resourceClaims.interaction.None? && env.decision == Some(PersonServer.Federate) && env.asMetadata
    requires Parse(ctx.request.resourceToken) == Ok(ParsedToken.Resource(ctx.resourceClaims)) && ctx.resourceClaims.aud == audience
    ensures env.asExchange.Some? && env.asExchange.value.AsComplete? &&
            VerifyFederatedAuthToken(env.asExchange.value.body.authToken, TrimSlash(audience), cfg.resourceUrl, agentJwt, env.trust, env.now).None? ==>
              PersonServer.Exchanged(cfg, store, ctx, agentJwt, env) == (store, Ok(PersonServer.Granted(env.asExchange.value.body)))
    ensures env.asExchange.Some? && env.asExchange.value.AsDeferred? ==>
              PersonServer.Exchanged(cfg, store, ctx, agentJwt, env)
              == PersonServer.Created(cfg, store, PersonServer.PendingContext(
                   ctx, agentJwt, Some(PersonServer.Federation(TrimSlash(audience), env.asExchange.value.asPendingUrl)), None, None),
                   env.asExchange.value.requirement, env)
  {
  }

  /** The Person Server hands on a token that passes its check of the Access Server's answer. */
  lemma PersonFederates(s: Setting, store: PersonServer.Store, body: TokenResponse, justification: Option<string>)
    requires SettingOk(s) && s.personEnv.decision == Some(PersonServer.Federate) && s.personEnv.asMetadata
    requires s.personEnv.asExchange == Some(PersonServer.AsComplete(body))
    requires VerifyResourceToken(TokenOf(s), Some(s.agent.claims.sub), Some(s.agent.jkt), s.personEnv.trust, s.personEnv.now) == Ok(TokenOf(s).resourceClaims)
    requires VerifyFederatedAuthToken(body.authToken, TrimSlash(s.audience), s.person.resourceUrl, s.agent.token, s.personEnv.trust, s.personEnv.now).None?
    ensures PersonServer.Requested(s.person, store, s.agent.token, s.agent.jkt, PersonServer.ExchangeRequest(TokenOf(s), justification), s.personEnv)
            == (store, Ok(PersonServer.Granted(body)))
  {
    RequestIsExchanged(s, store, justification);
    ExchangeFederates(s.person, store, ContextFor(s, justification), s.agent.token, s.personEnv, s.audience);
  }

  lemma AccessTokenAccepted(s: Setting, access: AccessServer.AccessConfig, authToken: Jwt, at: int, trust: Trust, now: int)
    requires SettingOk(s) && SameServer(access.accessServerUrl, s.audience) && SameServer(access.resourceUrl, s.agent.origin)
    requires MintedFor(authToken, s.agent, access.key, access.kid, "aauth-access.json", access.accessServerUrl, access.resourceUrl, at)
    requires Publishes(trust, access.accessServerUrl, "aauth-access.json", access.kid, access.key)
    requires now <= at + 3660
    ensures VerifyFederatedAuthToken(authToken, TrimSlash(s.audience), s.person.resourceUrl, s.agent.token, trust, now).None?
  {
    PublishedKeyVerifies(trust, access.accessServerUrl, "aauth-access.json", access.kid, access.key, authToken);
    FederatedExactly(authToken, TrimSlash(s.audience), s.person.resourceUrl, s.agent.token, trust, now);
    TrimTwice(s.audience);
  }

  lemma TrimTwice(url: string)
    ensures TrimSlash(TrimSlash(url)) == TrimSlash(url)
  {
  }

  /** An Access Server with its own store, policy and clock when it is asked. */
  datatype AccessSide = AccessSide(cfg: AccessServer.AccessConfig, store: AccessServer.Store, env: AccessServer.Env, join: string -> string)

  /** It is the server that the resource token names, for the same resource. */
  predicate IsAudience(s: Setting, cfg: AccessServer.AccessConfig) {
    SameServer(cfg.accessServerUrl, s.audience) && SameServer(cfg.resourceUrl, s.agent.origin)
  }

  /** Its store and answer when the Person Server posts the resource token and the agent token to it. */
  function AccessExchanged(s: Setting, a: AccessSide): (r: (AccessServer.Store, Option<AccessServer.Reply>)) {
    match AccessServer.FromExchange(a.cfg, s.agent.token, TokenOf(s))
    case None => (a.store, None)
    case Some(ctx) => AccessServer.Exchanged(a.cfg, a.store, ctx, a.env)
  }

  /** The token it mints for this agent. */
  function AccessToken(s: Setting, cfg: AccessServer.AccessConfig, sub: string, scope: Option<string>, at: int, jti: string): (r: Jwt) {
    EncodeAuthJwt(cfg.key, cfg.kid, "aauth-access.json", cfg.accessServerUrl, cfg.resourceUrl,
                  s.agent.claims.sub, s.agent.claims.cnf, Some(sub), scope, at, jti)
  }

  lemma AccessServerGrants(s: Setting, a: AccessSide, sub: string, scope: Option<string>, jti: string)
    requires AgentOk(s.agent) && a.env.decision == Some(AccessServer.Grant(sub, scope)) && a.env.jti == Some(jti)
    ensures AccessExchanged(s, a)
            == (a.store, Some(AccessServer.Granted(TokenResponse(AccessToken(s, a.cfg, sub, scope, a.env.now, jti), 3600))))
  {
  }

  /** Four parties: the audience is an Access Server, to which the Person Server federates and which grants at once. */
  lemma FourParties(s: Setting, store: PersonServer.Store, a: AccessSide, sub: string, scope: Option<string>, jti: string)
    requires SettingOk(s) && IsAudience(s, a.cfg)
    requires Normalize(s.personEnv.trust, s.audience) != Normalize(s.personEnv.trust, s.person.personServerUrl)
    requires a.env.decision == Some(AccessServer.Grant(sub, scope)) && a.env.jti == Some(jti)
    requires s.personEnv.asMetadata && s.personEnv.asExchange == AccessClient.ExchangeAnswer(AccessExchanged(s, a).1, a.join)
    requires Publishes(s.personEnv.trust, a.cfg.accessServerUrl, "aauth-access.json", a.cfg.kid, a.cfg.key)
    requires s.verifySignature ==> Publishes(s.agent.trust, a.cfg.accessServerUrl, "aauth-access.json", a.cfg.kid, a.cfg.key)
    requires s.personEnv.now <= a.env.now + 3660 && s.agentReceives <= a.env.now + 3660
    ensures var authToken := AccessToken(s, a.cfg, sub, scope, a.env.now, jti);
            Obtains(s, store, authToken)
            && MintedFor(authToken, s.agent, a.cfg.key, a.cfg.kid, "aauth-access.json", a.cfg.accessServerUrl, a.cfg.resourceUrl, a.env.now)
  {
    var body := TokenResponse(AccessToken(s, a.cfg, sub, scope, a.env.now, jti), 3600);
    AccessServerGrants(s, a, sub, scope, jti);
    ChallengeAccepted(s);
    AccessTokenAccepted(s, a.cfg, body.authToken, a.env.now, s.personEnv.trust, s.personEnv.now);
    forall justification
      ensures PersonServer.Requested(s.person, store, s.agent.token, s.agent.jkt, PersonServer.ExchangeRequest(TokenOf(s), justification), s.personEnv)
              == (store, Ok(PersonServer.Granted(TokenResponse(body.authToken, 3600))))
    {
      PersonFederates(s, store, body, justification);
    }
    AccessTokenReceived(s, a.cfg, body.authToken, a.env.now);
  }

  lemma AccessTokenReceived(s: Setting, cfg: AccessServer.AccessConfig, authToken: Jwt, at: int)
    requires SettingOk(s) && IsAudience(s, cfg)
    requires MintedFor(authToken, s.agent, cfg.key, cfg.kid, "aauth-access.json", cfg.accessServerUrl, cfg.resourceUrl, at)
    requires s.verifySignature ==> Publishes(s.agent.trust, cfg.accessServerUrl, "aauth-access.json", cfg.kid, cfg.key)
    requires s.agentReceives <= at + 3660
    ensures VerifyClientAuthToken(authToken, s.agent.origin, s.audience, s.agent.claims.sub, s.agent.jkt, s.agent.trust, s.verifySignature, s.agentReceives).Ok?
  {
    TrimmedImpliesNormalized(cfg.accessServerUrl, s.audience, s.agent.trust);
    AgentAcceptsAuthToken(authToken, s.agent, cfg.key, cfg.kid, "aauth-access.json", cfg.accessServerUrl,
                          cfg.resourceUrl, at, s.audience, s.verifySignature, s.agentReceives);
  }

  // ----- the same when the Access Server waits -----

  /** The deferral survives the way to the Person Server. */
  predicate Carries(location: string, requirement: Requirement) {
    DeferredWire.Absolute(location) && Readable(location) && DeferredWire.CarriableRequirement(requirement)
  }

  /** The Access Server defers when asked, and grants when it is resumed in time. */
  predicate WaitsThenGrants(a: AccessSide, requirement: Requirement, resumed: AccessServer.Env, sub: string, scope: Option<string>, jti: string) {
    && a.env.decision == Some(AccessServer.Defer(requirement))
    && resumed.decision == Some(AccessServer.Grant(sub, scope)) && resumed.jti == Some(jti)
    && resumed.now <= a.env.now + a.cfg.ttl
  }

  lemma AccessServerWaits(s: Setting, a: AccessSide, requirement: Requirement, resumed: AccessServer.Env, sub: string, scope: Option<string>, jti: string)
    requires AgentOk(s.agent) && WaitsThenGrants(a, requirement, resumed, sub, scope, jti)
    ensures var (store, deferred) := AccessExchanged(s, a);
            && deferred == Some(AccessServer.Deferred(AccessServer.Location(a.cfg, a.env.freshId), requirement))
            && AccessServer.Resumed(a.cfg, store, a.env.freshId, resumed).1
               == Some(AccessServer.Granted(TokenResponse(AccessToken(s, a.cfg, sub, scope, resumed.now, jti), 3600)))
  {
  }

  /** The Person Server hands the deferral on, with a location of its own. */
  lemma PersonDefers(s: Setting, store: PersonServer.Store, requirement: Requirement, url: string, justification: Option<string>)
    requires SettingOk(s) && s.personEnv.decision == Some(PersonServer.Federate) && s.personEnv.asMetadata
    requires s.personEnv.asExchange == Some(PersonServer.AsDeferred(requirement, url))
    requires VerifyResourceToken(TokenOf(s), Some(s.agent.claims.sub), Some(s.agent.jkt), s.personEnv.trust, s.personEnv.now) == Ok(TokenOf(s).resourceClaims)
    ensures var id := s.personEnv.freshId;
            var (store', reply) :=
              PersonServer.Requested(s.person, store, s.agent.token, s.agent.jkt, PersonServer.ExchangeRequest(TokenOf(s), justification), s.personEnv);
            && reply == Ok(PersonServer.Deferred(PersonServer.PendingLocation(s.person, id), requirement))
            && id in store' && store'[id].expiresAt == s.personEnv.now + s.person.ttl
            && store'[id].context.agentToken == s.agent.token
            && store'[id].context.federation == Some(PersonServer.Federation(TrimSlash(s.audience), url))
  {
    RequestIsExchanged(s, store, justification);
    ExchangeFederates(s.person, store, ContextFor(s, justification), s.agent.token, s.personEnv, s.audience);
  }

  /** A relayed input that the Access Server answers with a good token completes the request. */
  lemma PersonRelays(
    cfg: PersonServer.PersonConfig, store: PersonServer.Store, id: string, input: PendingInput, env: PersonServer.Env,
    federation: PersonServer.Federation, body: TokenResponse, polledAt: nat)
    requires id in store && store[id].context.federation == Some(federation)
    requires env.now <= store[id].expiresAt && polledAt <= store[id].expiresAt
    requires !input.Cancelled? && env.asResume == Some(Some(body))
    requires VerifyFederatedAuthToken(body.authToken, federation.accessServerUrl, cfg.resourceUrl, store[id].context.agentToken, env.trust, env.now).None?
    ensures var (store', reply) := PersonServer.Resumed(cfg, store, id, input, env);
            reply == Ok(PersonServer.Granted(body)) && Polled(store', id, polledAt).1 == Finished(AuthToken(body))
  {
  }

  /** What the agent sees: a deferral, a grant when its input is relayed, and the same token from a poll. */
  ghost predicate ObtainsLater(
    s: Setting, store: PersonServer.Store, requirement: Requirement, justification: Option<string>, input: PendingInput, later: PersonServer.Env,
    polledAt: nat, body: TokenResponse)
  {
    var (store1, first) :=
      PersonServer.Requested(s.person, store, s.agent.token, s.agent.jkt, PersonServer.ExchangeRequest(TokenOf(s), justification), s.personEnv);
    var (store2, second) := PersonServer.Resumed(s.person, store1, s.personEnv.freshId, input, later);
    && first == Ok(PersonServer.Deferred(PersonServer.PendingLocation(s.person, s.personEnv.freshId), requirement))
    && second == Ok(PersonServer.Granted(body))
    && Polled(store2, s.personEnv.freshId, polledAt).1 == Finished(AuthToken(body))
  }

  lemma PersonObtainsLater(
    s: Setting, store: PersonServer.Store, url: string, requirement: Requirement, justification: Option<string>, input: PendingInput,
    later: PersonServer.Env, polledAt: nat, body: TokenResponse)
    requires SettingOk(s) && s.personEnv.decision == Some(PersonServer.Federate) && s.personEnv.asMetadata
    requires s.personEnv.asExchange == Some(PersonServer.AsDeferred(requirement, url))
    requires VerifyResourceToken(TokenOf(s), Some(s.agent.claims.sub), Some(s.agent.jkt), s.personEnv.trust, s.personEnv.now) == Ok(TokenOf(s).resourceClaims)
    requires !input.Cancelled? && later.asResume == Some(Some(body))
    requires later.now <= s.personEnv.now + s.person.ttl && polledAt <= s.personEnv.now + s.person.ttl
    requires VerifyFederatedAuthToken(body.authToken, TrimSlash(s.audience), s.person.resourceUrl, s.agent.token, later.trust, later.now).None?
    ensures ObtainsLater(s, store, requirement, justification, input, later, polledAt, body)
  {
    PersonDefers(s, store, requirement, url, justification);
    var store1 :=
      PersonServer.Requested(s.person, store, s.agent.token, s.agent.jkt, PersonServer.ExchangeRequest(TokenOf(s), justification), s.personEnv).0;
    PersonRelays(s.person, store1, s.personEnv.freshId, input, later, PersonServer.Federation(TrimSlash(s.audience), url), body, polledAt);
  }

  /**
   Four parties with a wait. The Access Server defers the exchange and grants when it is
   resumed; the Person Server hands the deferral on and relays the agent's input; the token
   then granted is stored, polled and accepted. What the Person Server hears is what the
   Access Server answers, as it is printed and parsed.
   */
  lemma FourPartiesDeferred(
    s: Setting, store: PersonServer.Store, a: AccessSide, requirement: Requirement, resumed: AccessServer.Env, sub: string, scope: Option<string>,
    jti: string, justification: Option<string>, input: PendingInput, later: PersonServer.Env, polledAt: nat)
    requires SettingOk(s) && IsAudience(s, a.cfg) && WaitsThenGrants(a, requirement, resumed, sub, scope, jti)
    requires Carries(AccessServer.Location(a.cfg, a.env.freshId), requirement)
    requires s.personEnv.decision == Some(PersonServer.Federate) && s.personEnv.asMetadata
    requires s.personEnv.asExchange == AccessClient.ExchangeAnswer(AccessExchanged(s, a).1, a.join)
    requires later.asResume == AccessClient.PostAnswer(AccessServer.Resumed(a.cfg, AccessExchanged(s, a).0, a.env.freshId, resumed).1)
    requires !input.Cancelled?
    requires later.now <= s.personEnv.now + s.person.ttl && polledAt <= s.personEnv.now + s.person.ttl
    requires Publishes(later.trust, a.cfg.accessServerUrl, "aauth-access.json", a.cfg.kid, a.cfg.key)
    requires s.verifySignature ==> Publishes(s.agent.trust, a.cfg.accessServerUrl, "aauth-access.json", a.cfg.kid, a.cfg.key)
    requires later.now <= resumed.now + 3660 && s.agentReceives <= resumed.now + 3660
    ensures var authToken := AccessToken(s, a.cfg, sub, scope, resumed.now, jti);
            && ObtainsLater(s, store, requirement, justification, input, later, polledAt, TokenResponse(authToken, 3600))
            && VerifyClientAuthToken(authToken, s.agent.origin, s.audience, s.agent.claims.sub, s.agent.jkt, s.agent.trust, s.verifySignature, s.agentReceives).Ok?
            && MintedFor(authToken, s.agent, a.cfg.key, a.cfg.kid, "aauth-access.json", a.cfg.accessServerUrl, a.cfg.resourceUrl, resumed.now)
  {
    var url := AccessServer.Location(a.cfg, a.env.freshId);
    var body := TokenResponse(AccessToken(s, a.cfg, sub, scope, resumed.now, jti), 3600);
    AccessServerWaits(s, a, requirement, resumed, sub, scope, jti);
    AccessClient.ExchangeAnswerExactly(url, requirement, a.join);
    ChallengeAccepted(s);
    AccessTokenAccepted(s, a.cfg, body.authToken, resumed.now, later.trust, later.now);
    PersonObtainsLater(s, store, url, requirement, justification, input, later, polledAt, body);
    AccessTokenReceived(s, a.cfg, body.authToken, resumed.now);
  }

  /** From the first request to the handler, whoever minted the token in between. */
  lemma ChallengedThenServed(
    s: Setting, authToken: Jwt, key: Jwk, kid: Option<string>, dwk: string, iss: string, aud: string, at: int,
    parts: Parts, fields: Fields, created1: nat, created2: nat)
    requires SettingOk(s) && MintedFor(authToken, s.agent, key, kid, dwk, iss, aud, at) && SameServer(aud, s.agent.origin)
    requires Publishes(s.retry.trust, iss, dwk, kid, key) && Encodes(s.retry.codec, authToken)
    requires s.retry.now <= at + 3660
    requires InWindow(created1, DEFAULT_OPTIONS, s.first.now) && InWindow(created2, DEFAULT_OPTIONS, s.retry.now)
    ensures var (text, tokenText) := (s.first.codec.encode(s.agent.token), s.retry.codec.encode(authToken));
            var req1 := AgentRequest(parts, fields, text, s.agent.key, AgentOnly, created1);
            var req2 := AgentRequest(parts, fields, text, s.agent.key, WithAuthToken(tokenText), created2);
            && req1.Some? && req2.Some?
            && ReplyTo(s.layer, s.first, req1.value) == AuthTokenRequired(ChallengeHeader(s.first, TokenOf(s)))
            && Headers.FromHeader(ChallengeHeader(s.first, TokenOf(s))) == Ok(Headers.AuthTokenNeeded(s.first.codec.encode(TokenOf(s))))
            && ReplyTo(s.layer, s.retry, req2.value) == Handler(Auth(authToken.authClaims))
  {
    RequestIsChallenged(s.layer, s.first, s.agent, parts, fields, AgentOnly, created1, s.audience);
    MintedIsGenuine(s.layer, s.retry, authToken, s.agent, key, kid, dwk, iss, aud, at);
    RetryReachesHandler(s.layer, s.retry, authToken, s.agent, parts, fields, s.first.codec.encode(s.agent.token), created2);
  }
}
