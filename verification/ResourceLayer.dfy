/**
 The layer in front of a protected resource: who reaches the handler, and what everybody
 else is told.

 Compact tokens travel as text; `Codec` is the ideal encoding between that text and what
 a token says.
 */
module ResourceLayer {
  import opened Prelude
  import opened Text
  import opened Tokens
  import opened Deferral
  import opened HttpSignature
  import Headers
  import SignatureKeys
  import Token68

  const TWO_62 := 0x4000_0000_0000_0000

  /** Clock readings, with room for the lifetimes added to them. */
  type Seconds = x: int | 0 <= x < TWO_62

  datatype Codec = Codec(decode: string -> Jwt, encode: Jwt -> string, cnf: string -> Option<Jwk>)

  datatype AccessMode =
    | IdentityBased
    | PsAsserted(requireAuthToken: bool, accessServerUrl: Option<string>, personServerFallback: Option<string>)
    | ResourceManaged

  datatype LayerConfig = LayerConfig(resourceUrl: string, mode: AccessMode, key: Jwk, kid: Option<string>)

  datatype Consent = GrantOpaque(token: string) | ConsentDeferred(location: string, requirement: Requirement) | ConsentDenied(error: ProtocolError)

  /** What one call learns from outside; None stands for an error. */
  datatype LayerEnv = LayerEnv(
    now: Seconds, trust: Trust, codec: Codec, jti: string, signerWorks: bool,
    interaction: Option<InteractionClaim>,
    validOpaque: (string, string) -> bool, consent: Option<Consent>)

  /** `authorization` holds every `Authorization` value; one that is not text is None. */
  datatype Request = Request(parts: Parts, message: Message, authorization: seq<Option<string>>)

  datatype LayerReply =
    | Handler(token: ParsedToken)
    | AgentTokenRequired
    | SignatureRefused(signatureError: SignatureError)
    | TokenRefused(verifyError: VerifyError)
    | InvalidOpaque
    | NoAudience
    | SigningFailed
    | AuthTokenRequired(requirement: string)
    | Consented(consent: Consent)
    | ServerFailed

  /** The opaque credential of a request, if it has one. */
  function ExtractAccess(authorization: seq<Option<string>>): (r: Result<Option<string>, ()>) {
    if authorization == [] then Ok(None)
    else if |authorization| > 1 || authorization[0].None? then Err(())
    else if !("AAuth" <= Trim(authorization[0].value)) then Ok(None)
    else
      match Token68.ParseCredential(authorization[0].value)
      case None => Err(())
      case Some(token) => Ok(Some(token))
  }

  predicate MissingAgentCredential(e: SignatureError) {
    e in {MissingSignatureKey, MissingSignature, MissingSignatureInput, BadSignatureKey(SignatureKeys.MissingJwtParam)}
  }

  function ResolveAudience(agent: AgentClaims, mode: AccessMode): (r: Option<string>)
    requires mode.PsAsserted?
  {
    if mode.accessServerUrl.Some? then mode.accessServerUrl
    else if agent.ps.Some? then agent.ps
    else mode.personServerFallback
  }

  const RESOURCE_TOKEN_LIFETIME := 300

  function ResourceToken(cfg: LayerConfig, env: LayerEnv, audience: string, agent: AgentClaims, jkt: Thumb): (r: Jwt) {
    ResourceJwt(cfg.kid,
                ResourceClaims(cfg.resourceUrl, "aauth-resource.json", audience, env.jti, agent.sub, jkt,
                               env.now, env.now + RESOURCE_TOKEN_LIFETIME, None, env.interaction),
                cfg.key)
  }

  function ChallengeHeader(env: LayerEnv, token: Jwt): (r: string) {
    Headers.ToHeader(Headers.AuthTokenNeeded(env.codec.encode(token)))
  }

  /** After the HTTP signature and the token have been verified. */
  function Admit(cfg: LayerConfig, env: LayerEnv, token: ParsedToken, thumbprint: Thumb): (r: LayerReply) {
    if token.Auth? && !AuthTokenBound(token.auth, cfg.resourceUrl, env.trust) then TokenRefused(AudMismatch)
    else
      match cfg.mode
      case IdentityBased => if token.Agent? then Handler(token) else AgentTokenRequired
      case PsAsserted(required, _, _) =>
        if required && token.Agent? then
          match ResolveAudience(token.agent, cfg.mode)
          case None => NoAudience
          case Some(audience) =>
            if !env.signerWorks then SigningFailed
            else AuthTokenRequired(ChallengeHeader(env, ResourceToken(cfg, env, audience, token.agent, thumbprint)))
        else Handler(token)
      case ResourceManaged =>
        if token.Agent? then (if env.consent.Some? then Consented(env.consent.value) else ServerFailed)
        else if token.Auth? then Handler(token)
        else InvalidOpaque
  }

  /** A request with an opaque credential: the credential decides, for the agent the token names. */
  function AdmitOpaque(env: LayerEnv, credential: string, jwt: Jwt): (r: LayerReply) {
    match Parse(jwt)
    case Ok(Agent(agent)) => if env.validOpaque(credential, agent.sub) then Handler(Agent(agent)) else InvalidOpaque
    case Ok(Auth(_)) => InvalidOpaque
    case Ok(Resource(_)) => InvalidOpaque
    case Err(_) => InvalidOpaque
  }

  function Decide(cfg: LayerConfig, env: LayerEnv, access: Result<Option<string>, ()>, verification: Result<Verified, SignatureError>)
    : (r: LayerReply)
  {
    match verification
    case Err(e) => if cfg.mode.IdentityBased? && MissingAgentCredential(e) then AgentTokenRequired else SignatureRefused(e)
    case Ok(v) =>
      if v.jwt.None? then
        (if cfg.mode.IdentityBased? then AgentTokenRequired else SignatureRefused(BadSignatureKey(SignatureKeys.MissingJwtParam)))
      else
        var jwt := env.codec.decode(v.jwt.value);
        if cfg.mode.ResourceManaged? && access.Err? then InvalidOpaque
        else if cfg.mode.ResourceManaged? && access.value.Some? then AdmitOpaque(env, access.value.value, jwt)
        else
          match VerifyToken(jwt, v.thumbprint, env.trust, env.now)
          case Err(e) => if cfg.mode.IdentityBased? && e.UnsupportedTyp? then AgentTokenRequired else TokenRefused(e)
          case Ok(token) => Admit(cfg, env, token, v.thumbprint)
  }

  function AccessOf(cfg: LayerConfig, req: Request): (r: Result<Option<string>, ()>) {
    if cfg.mode.ResourceManaged? then ExtractAccess(req.authorization) else Ok(None)
  }

  /** An opaque credential, or a broken one, must be covered by the signature. */
  function OptionsFor(access: Result<Option<string>, ()>): (r: VerifyOptions) {
    DEFAULT_OPTIONS.(requireAuthorization := access.Err? || access.value.Some?)
  }

  function VerificationOf(cfg: LayerConfig, env: LayerEnv, req: Request): (r: Result<Verified, SignatureError>) {
    Verification(req.message, req.parts, OptionsFor(AccessOf(cfg, req)), env.codec.cnf, env.now)
  }

  function ReplyTo(cfg: LayerConfig, env: LayerEnv, req: Request): (r: LayerReply) {
    Decide(cfg, env, AccessOf(cfg, req), VerificationOf(cfg, env, req))
  }

  /** The agent a token names, or nobody. */
  function AgentSubFromJwt(jwt: Jwt): (r: string) {
    match Parse(jwt)
    case Ok(Agent(agent)) => agent.sub
    case Ok(Auth(_)) => ""
    case Ok(Resource(_)) => ""
    case Err(_) => ""
  }

  /** A request on its way to the handler; the layer notes in its extensions whose it is. */
  class RequestContext {
    const parts: Parts
    const headers: HeaderMap
    const authorization: seq<Option<string>>
    var extension: Option<ParsedToken>

    constructor (parts: Parts, headers: HeaderMap, authorization: seq<Option<string>>)
      ensures this.parts == parts && this.headers == headers && this.authorization == authorization && extension == None
    {
      this.parts, this.headers, this.authorization, extension := parts, headers, authorization, None;
    }

    function AsRequest(): (r: Request)
      reads headers
    {
      Request(parts, headers.Contents(), authorization)
    }
  }

  method Call(cfg: LayerConfig, env: LayerEnv, ctx: RequestContext) returns (reply: LayerReply)
    modifies ctx
    ensures reply == ReplyTo(cfg, env, ctx.AsRequest())
    ensures ctx.extension == if reply.Handler? then Some(reply.token) else old(ctx.extension)
  {
    var opaqueAuth: Result<Option<string>, ()> := Ok(None);
    if cfg.mode.ResourceManaged? {
      opaqueAuth := ExtractAccess(ctx.authorization);
    }
    var options := DEFAULT_OPTIONS;
    if opaqueAuth.Err? || opaqueAuth.value.Some? {
      options := options.(requireAuthorization := true);
    }
    var verified := ctx.headers.Verify(ctx.parts, options, env.codec.cnf, env.now);
    if verified.Err? {
      if cfg.mode.IdentityBased? && MissingAgentCredential(verified.error) {
        return AgentTokenRequired;
      }
      return SignatureRefused(verified.error);
    }
    if verified.value.jwt.None? {
      if cfg.mode.IdentityBased? {
        return AgentTokenRequired;
      }
      return SignatureRefused(BadSignatureKey(SignatureKeys.MissingJwtParam));
    }
    var jwt := env.codec.decode(verified.value.jwt.value);
    var thumbprint := verified.value.thumbprint;
    if cfg.mode.ResourceManaged? {
      if opaqueAuth.Err? {
        return InvalidOpaque;
      }
      if opaqueAuth.value.Some? {
        var agentId := AgentSubFromJwt(jwt);
        if env.validOpaque(opaqueAuth.value.value, agentId) {
          var parsed := Parse(jwt);
          if parsed.Ok? && parsed.value.Agent? {
            ctx.extension := Some(parsed.value);
            return Handler(parsed.value);
          }
        }
        return InvalidOpaque;
      }
    }
    var token := VerifyToken(jwt, thumbprint, env.trust, env.now);
    if token.Err? {
      if cfg.mode.IdentityBased? && token.error.UnsupportedTyp? {
        return AgentTokenRequired;
      }
      return TokenRefused(token.error);
    }
    if token.value.Auth? && !AuthTokenBound(token.value.auth, cfg.resourceUrl, env.trust) {
      return TokenRefused(AudMismatch);
    }
    reply := Dispatch(cfg, env, ctx, token.value, thumbprint);
  }

  /** The last step: what the mode does with a verified token. */
  method Dispatch(cfg: LayerConfig, env: LayerEnv, ctx: RequestContext, token: ParsedToken, thumbprint: Thumb) returns (reply: LayerReply)
    requires token.Auth? ==> AuthTokenBound(token.auth, cfg.resourceUrl, env.trust)
    modifies ctx
    ensures reply == Admit(cfg, env, token, thumbprint)
    ensures ctx.extension == if reply.Handler? then Some(reply.token) else old(ctx.extension)
  {
    match cfg.mode {
      case IdentityBased =>
        if !token.Agent? {
          return AgentTokenRequired;
        }
      case PsAsserted(required, _, _) =>
        if required && token.Agent? {
          var audience := ResolveAudience(token.agent, cfg.mode);
          if audience.None? {
            return NoAudience;
          }
          var resourceToken := ResourceToken(cfg, env, audience.value, token.agent, thumbprint);
          if !env.signerWorks {
            return SigningFailed;
          }
          return AuthTokenRequired(ChallengeHeader(env, resourceToken));
        }
      case ResourceManaged =>
        if token.Agent? {
          if env.consent.None? {
            return ServerFailed;
          }
          return Consented(env.consent.value);
        }
        if token.Resource? {
          return InvalidOpaque;
        }
    }
    ctx.extension := Some(token);
    reply := Handler(token);
  }

  // ----- exactly who reaches the handler -----

  /** The kinds of token a mode lets through without an opaque credential. */
  predicate Suffices(mode: AccessMode, token: ParsedToken) {
    match mode
    case IdentityBased => token.Agent?
    case PsAsserted(required, _, _) => token.Auth? || (token.Agent? && !required)
    case ResourceManaged => token.Auth?
  }

  /** The token of a verified signature is genuine, unexpired, bound to the signing key and meant for this resource. */
  predicate Genuine(cfg: LayerConfig, env: LayerEnv, jwt: Jwt, thumbprint: Thumb, token: ParsedToken) {
    && PresentedOk(jwt, thumbprint, env.trust, env.now) && token == ClaimsOf(jwt)
    && (token.Auth? ==> Normalize(env.trust, token.auth.aud) == Normalize(env.trust, cfg.resourceUrl))
  }

  /** `Authorization` holds an `AAuth` credential, good or broken, or values among which one may hide. */
  predicate PresentsCredential(req: Request) {
    || |req.authorization| > 1
    || (|req.authorization| == 1 && (req.authorization[0].None? || "AAuth" <= Trim(req.authorization[0].value)))
  }

  /** It holds this credential and nothing else. */
  ghost predicate Presents(req: Request, token: string) {
    && |req.authorization| == 1 && req.authorization[0].Some?
    && Token68.Token68Grammar(token) && Trim(req.authorization[0].value) == "AAuth " + token
  }

  /** The credential decides, at a resource that manages access itself. */
  predicate ByCredential(cfg: LayerConfig, req: Request) {
    cfg.mode.ResourceManaged? && PresentsCredential(req)
  }

  /** What the signature on a request must be: at most two minutes old, and over the credential when that decides. */
  predicate WellSigned(cfg: LayerConfig, env: LayerEnv, req: Request, v: Verified) {
    Acceptable(req.message, req.parts, VerifyOptions(60, 60, ByCredential(cfg, req), None), env.codec.cnf, env.now, v)
  }

  lemma ExtractExactly(req: Request, token: string)
    ensures ExtractAccess(req.authorization) == Ok(None) <==> !PresentsCredential(req)
    ensures ExtractAccess(req.authorization) == Ok(Some(token)) <==> Presents(req, token)
  {
    if |req.authorization| == 1 && req.authorization[0].Some? {
      var value := req.authorization[0].value;
      Token68.AcceptedExactly(value, token);
      assert "AAuth" <= "AAuth " + token;
    }
  }

  lemma VerificationIsWellSigned(cfg: LayerConfig, env: LayerEnv, req: Request, v: Verified)
    ensures VerificationOf(cfg, env, req) == Ok(v) <==> WellSigned(cfg, env, req, v)
  {
    ExtractExactly(req, "");
    var options := VerifyOptions(60, 60, ByCredential(cfg, req), None);
    assert OptionsFor(AccessOf(cfg, req)) == options;
    VerificationExactly(req.message, req.parts, options, env.codec.cnf, env.now, v);
  }

  /** A good signature names a token that entitles the request to be handled as `token` says. */
  ghost predicate Entitles(cfg: LayerConfig, env: LayerEnv, req: Request, v: Verified, token: ParsedToken) {
    && v.jwt.Some?
    && var jwt := env.codec.decode(v.jwt.value);
       if ByCredential(cfg, req) then
         && jwt.AgentJwt? && token == Agent(jwt.agentClaims)
         && exists credential :: Presents(req, credential) && env.validOpaque(credential, jwt.agentClaims.sub)
       else
         Genuine(cfg, env, jwt, v.thumbprint, token) && Suffices(cfg.mode, token)
  }

  /** Without a credential the token decides. */
  lemma DecidedByToken(cfg: LayerConfig, env: LayerEnv, access: Result<Option<string>, ()>, v: Verified)
    requires v.jwt.Some? && (cfg.mode.ResourceManaged? ==> access == Ok(None))
    ensures var jwt := env.codec.decode(v.jwt.value);
            var r := Decide(cfg, env, access, Ok(v));
            if PresentedOk(jwt, v.thumbprint, env.trust, env.now) then r == Admit(cfg, env, ClaimsOf(jwt), v.thumbprint)
            else if cfg.mode.IdentityBased? && jwt.ResourceJwt? then r == AgentTokenRequired
            else r.TokenRefused?
  {
    VerifyTokenExactly(env.codec.decode(v.jwt.value), v.thumbprint, env.trust, env.now);
  }

  lemma DecidedByCredential(cfg: LayerConfig, env: LayerEnv, access: Result<Option<string>, ()>, v: Verified, token: ParsedToken)
    requires v.jwt.Some? && cfg.mode.ResourceManaged? && access != Ok(None)
    ensures var jwt := env.codec.decode(v.jwt.value);
            Decide(cfg, env, access, Ok(v)) == Handler(token)
            <==> access.Ok? && jwt.AgentJwt? && token == Agent(jwt.agentClaims) && env.validOpaque(access.value.value, jwt.agentClaims.sub)
  {
  }

  lemma CredentialDecides(cfg: LayerConfig, env: LayerEnv, access: Result<Option<string>, ()>, v: Verified)
    requires v.jwt.Some? && cfg.mode.ResourceManaged? && access != Ok(None)
    ensures Decide(cfg, env, access, Ok(v)).Handler? || Decide(cfg, env, access, Ok(v)) == InvalidOpaque
  {
  }

  /** What a mode makes of a verified token. */
  lemma AdmitExactly(cfg: LayerConfig, env: LayerEnv, token: ParsedToken, thumbprint: Thumb, t: ParsedToken, consent: Consent)
    requires !token.Resource?
    ensures var r := Admit(cfg, env, token, thumbprint);
            var meant := token.Auth? ==> Normalize(env.trust, token.auth.aud) == Normalize(env.trust, cfg.resourceUrl);
            && (r == Handler(t) <==> token == t && meant && Suffices(cfg.mode, t))
            && (r == Consented(consent) <==> token.Agent? && cfg.mode.ResourceManaged? && env.consent == Some(consent))
            && (r == AgentTokenRequired <==> token.Auth? && meant && cfg.mode.IdentityBased?)
  {
  }

  lemma EntitledIsDecided(cfg: LayerConfig, env: LayerEnv, req: Request, v: Verified, token: ParsedToken)
    ensures Decide(cfg, env, AccessOf(cfg, req), Ok(v)) == Handler(token) <==> Entitles(cfg, env, req, v, token)
  {
    var access := AccessOf(cfg, req);
    ExtractExactly(req, "");
    if v.jwt.Some? {
      if ByCredential(cfg, req) {
        DecidedByCredential(cfg, env, access, v, token);
        forall credential ensures Presents(req, credential) <==> access == Ok(Some(credential)) {
          ExtractExactly(req, credential);
        }
        assert access.Ok? ==> Presents(req, access.value.value);
      } else {
        var jwt := env.codec.decode(v.jwt.value);
        DecidedByToken(cfg, env, access, v);
        if PresentedOk(jwt, v.thumbprint, env.trust, env.now) {
          AdmitExactly(cfg, env, ClaimsOf(jwt), v.thumbprint, token, ConsentDenied(ProtocolError(DeniedCode, None)));
        }
      }
    }
  }

  /** The handler is reached exactly by a good signature that names an entitling token. */
  lemma ReachesHandler(cfg: LayerConfig, env: LayerEnv, req: Request, token: ParsedToken)
    ensures ReplyTo(cfg, env, req) == Handler(token) <==> exists v :: WellSigned(cfg, env, req, v) && Entitles(cfg, env, req, v, token)
  {
    var verification := VerificationOf(cfg, env, req);
    if verification.Ok? {
      VerificationIsWellSigned(cfg, env, req, verification.value);
      EntitledIsDecided(cfg, env, req, verification.value, token);
    }
    forall v | WellSigned(cfg, env, req, v) ensures verification == Ok(v) {
      VerificationIsWellSigned(cfg, env, req, v);
    }
  }

  /** The signature lists `authorization`. */
  predicate SignatureCovers(message: Message, name: string) {
    && message.inputs.Some? && DEFAULT_LABEL in message.inputs.value
    && name in message.inputs.value[DEFAULT_LABEL].covered
  }

  /** A credential added to a signed request, or a broken one, gets nowhere: the signature is refused. */
  lemma UncoveredCredentialRefused(cfg: LayerConfig, env: LayerEnv, req: Request)
    requires ByCredential(cfg, req) && !SignatureCovers(req.message, "authorization")
    ensures ReplyTo(cfg, env, req).SignatureRefused?
  {
    var verification := VerificationOf(cfg, env, req);
    if verification.Ok? {
      VerificationIsWellSigned(cfg, env, req, verification.value);
    }
  }

  /** Where only one `Authorization` value was sent, the signature sees that one. */
  predicate Coherent(req: Request) {
    |req.authorization| == 1 && req.authorization[0].Some? ==>
      "authorization" in req.message.fields && req.message.fields["authorization"] == req.authorization[0].value
  }

  /** A credential that opens the handler is the one over which the agent's signature was made. */
  lemma ServedCredentialIsSigned(cfg: LayerConfig, env: LayerEnv, req: Request, token: ParsedToken)
    requires Coherent(req) && ByCredential(cfg, req) && ReplyTo(cfg, env, req) == Handler(token)
    ensures |req.authorization| == 1 && req.authorization[0].Some?
    ensures req.message.signatures.Some? && DEFAULT_LABEL in req.message.signatures.value
    ensures Line("authorization", req.authorization[0].value) in req.message.signatures.value[DEFAULT_LABEL].base.lines
  {
    ReachesHandler(cfg, env, req, token);
    var v :| WellSigned(cfg, env, req, v) && Entitles(cfg, env, req, v, token);
    var options := VerifyOptions(60, 60, true, None);
    VerificationExactly(req.message, req.parts, options, env.codec.cnf, env.now, v);
    var signature := req.message.signatures.value[DEFAULT_LABEL];
    AcceptedMeansSigned(req.message, req.parts, options, env.codec.cnf, env.now, v, signature.key, signature.base);
  }

  // ----- what everybody else is told -----

  /** The resource's Access Server comes first, then the agent's own person server, then the resource's fallback. */
  predicate Addresses(mode: AccessMode, agent: AgentClaims, audience: string) {
    && mode.PsAsserted?
    && if mode.accessServerUrl.Some? then mode.accessServerUrl.value == audience
       else if agent.ps.Some? then agent.ps.value == audience
       else mode.personServerFallback == Some(audience)
  }

  lemma AudienceExactly(agent: AgentClaims, mode: AccessMode, audience: string)
    requires mode.PsAsserted?
    ensures ResolveAudience(agent, mode) == Some(audience) <==> Addresses(mode, agent, audience)
  {
  }

  /** The header carries a resource token, for 300 s, for this agent and key, with the interaction the resource asks for. */
  predicate CarriesToken(cfg: LayerConfig, env: LayerEnv, agent: AgentClaims, jkt: Thumb, audience: string, header: string) {
    header == Headers.ToHeader(Headers.AuthTokenNeeded(env.codec.encode(
      ResourceJwt(cfg.kid,
                  ResourceClaims(iss := cfg.resourceUrl, dwk := "aauth-resource.json", aud := audience, jti := env.jti,
                                 agent := agent.sub, agentJkt := jkt, iat := env.now, exp := env.now + 300,
                                 scope := None, interaction := env.interaction),
                  cfg.key))))
  }

  /** The signature is good, and the token it names is genuine and an agent token. */
  predicate FromAgent(cfg: LayerConfig, env: LayerEnv, req: Request, v: Verified) {
    && WellSigned(cfg, env, req, v) && v.jwt.Some?
    && env.codec.decode(v.jwt.value).AgentJwt?
    && PresentedOk(env.codec.decode(v.jwt.value), v.thumbprint, env.trust, env.now)
  }

  /** Where an auth token is required, the agent is told where to take this resource token. */
  predicate Tells(cfg: LayerConfig, env: LayerEnv, agent: AgentClaims, jkt: Thumb, audience: string, header: string) {
    && cfg.mode.PsAsserted? && cfg.mode.requireAuthToken && env.signerWorks
    && Addresses(cfg.mode, agent, audience) && CarriesToken(cfg, env, agent, jkt, audience, header)
  }

  /** The agent that signed the request is told so. */
  ghost predicate IsChallenged(cfg: LayerConfig, env: LayerEnv, req: Request, v: Verified, header: string) {
    FromAgent(cfg, env, req, v) && ToldSomewhere(cfg, env, env.codec.decode(v.jwt.value).agentClaims, v.thumbprint, header)
  }

  ghost predicate ToldSomewhere(cfg: LayerConfig, env: LayerEnv, agent: AgentClaims, jkt: Thumb, header: string) {
    exists audience :: Tells(cfg, env, agent, jkt, audience, header)
  }

  lemma AdmitChallenges(cfg: LayerConfig, env: LayerEnv, token: ParsedToken, jkt: Thumb, header: string)
    ensures Admit(cfg, env, token, jkt) == AuthTokenRequired(header)
            <==> token.Agent? && ToldSomewhere(cfg, env, token.agent, jkt, header)
  {
    if cfg.mode.PsAsserted? && token.Agent? {
      var audience := ResolveAudience(token.agent, cfg.mode);
      forall a: string ensures audience == Some(a) <==> Addresses(cfg.mode, token.agent, a) {
        AudienceExactly(token.agent, cfg.mode, a);
      }
      if audience.Some? {
        assert Tells(cfg, env, token.agent, jkt, audience.value, header)
               <==> cfg.mode.requireAuthToken && env.signerWorks && header == ChallengeHeader(env, ResourceToken(cfg, env, audience.value, token.agent, jkt));
      }
    }
  }

  lemma ChallengeDecided(cfg: LayerConfig, env: LayerEnv, req: Request, v: Verified, header: string)
    requires WellSigned(cfg, env, req, v)
    ensures Decide(cfg, env, AccessOf(cfg, req), Ok(v)) == AuthTokenRequired(header)
            <==> IsChallenged(cfg, env, req, v, header)
  {
    ExtractExactly(req, "");
    var access := AccessOf(cfg, req);
    if v.jwt.Some? {
      var jwt := env.codec.decode(v.jwt.value);
      if ByCredential(cfg, req) {
        CredentialDecides(cfg, env, access, v);
      } else {
        DecidedByToken(cfg, env, access, v);
        if PresentedOk(jwt, v.thumbprint, env.trust, env.now) {
          AdmitChallenges(cfg, env, ClaimsOf(jwt), v.thumbprint, header);
        }
      }
    }
  }

  /** An agent token is challenged exactly when an auth token is required of it; the challenge names this agent and key. */
  lemma ChallengedWith(cfg: LayerConfig, env: LayerEnv, req: Request, header: string)
    ensures ReplyTo(cfg, env, req) == AuthTokenRequired(header)
            <==> exists v :: IsChallenged(cfg, env, req, v, header)
  {
    var verification := VerificationOf(cfg, env, req);
    if verification.Ok? {
      VerificationIsWellSigned(cfg, env, req, verification.value);
      ChallengeDecided(cfg, env, req, verification.value, header);
    }
    forall v | WellSigned(cfg, env, req, v) ensures verification == Ok(v) {
      VerificationIsWellSigned(cfg, env, req, v);
    }
  }

  lemma ConsentDecided(cfg: LayerConfig, env: LayerEnv, req: Request, v: Verified, consent: Consent)
    requires WellSigned(cfg, env, req, v)
    ensures Decide(cfg, env, AccessOf(cfg, req), Ok(v)) == Consented(consent)
            <==> cfg.mode.ResourceManaged? && !PresentsCredential(req) && env.consent == Some(consent) && FromAgent(cfg, env, req, v)
  {
    ExtractExactly(req, "");
    var access := AccessOf(cfg, req);
    if v.jwt.Some? {
      var jwt := env.codec.decode(v.jwt.value);
      if ByCredential(cfg, req) {
        CredentialDecides(cfg, env, access, v);
      } else {
        DecidedByToken(cfg, env, access, v);
        if PresentedOk(jwt, v.thumbprint, env.trust, env.now) {
          AdmitExactly(cfg, env, ClaimsOf(jwt), v.thumbprint, ClaimsOf(jwt), consent);
        }
      }
    }
  }

  /** The consent policy is asked exactly about a genuine agent without a credential, at a resource that manages access itself. */
  lemma ConsentAskedExactly(cfg: LayerConfig, env: LayerEnv, req: Request, consent: Consent)
    ensures ReplyTo(cfg, env, req) == Consented(consent) <==>
              && cfg.mode.ResourceManaged? && !PresentsCredential(req) && env.consent == Some(consent)
              && exists v :: FromAgent(cfg, env, req, v)
  {
    ExtractExactly(req, "");
    var verification := VerificationOf(cfg, env, req);
    if verification.Ok? {
      VerificationIsWellSigned(cfg, env, req, verification.value);
      ConsentDecided(cfg, env, req, verification.value, consent);
    }
    forall v | FromAgent(cfg, env, req, v) ensures verification == Ok(v) {
      VerificationIsWellSigned(cfg, env, req, v);
    }
  }

  /** An agent token is asked for exactly at an identity-based resource, of a request that names no token, or one of the wrong kind. */
  lemma AgentTokenAskedExactly(cfg: LayerConfig, env: LayerEnv, req: Request)
    ensures ReplyTo(cfg, env, req) == AgentTokenRequired <==>
              && cfg.mode.IdentityBased?
              && match VerificationOf(cfg, env, req)
                 case Err(e) =>
                   e in {MissingSignatureKey, MissingSignature, MissingSignatureInput, BadSignatureKey(SignatureKeys.MissingJwtParam)}
                 case Ok(v) =>
                   v.jwt.Some? ==>
                     var jwt := env.codec.decode(v.jwt.value);
                     jwt.ResourceJwt? || (jwt.AuthJwt? && Genuine(cfg, env, jwt, v.thumbprint, Auth(jwt.authClaims)))
  {
    ExtractExactly(req, "");
    var verification := VerificationOf(cfg, env, req);
    if verification.Ok? && verification.value.jwt.Some? {
      var v, jwt := verification.value, env.codec.decode(verification.value.jwt.value);
      if ByCredential(cfg, req) {
        CredentialDecides(cfg, env, AccessOf(cfg, req), v);
      } else {
        DecidedByToken(cfg, env, AccessOf(cfg, req), v);
        if PresentedOk(jwt, v.thumbprint, env.trust, env.now) {
          AdmitExactly(cfg, env, ClaimsOf(jwt), v.thumbprint, ClaimsOf(jwt), ConsentDenied(ProtocolError(DeniedCode, None)));
        }
      }
    }
  }

  lemma AgentAdmitted(cfg: LayerConfig, env: LayerEnv, agent: AgentClaims, jkt: Thumb)
    ensures var reply := Admit(cfg, env, Agent(agent), jkt);
            var required := cfg.mode.PsAsserted? && cfg.mode.requireAuthToken;
            && (reply == NoAudience <==>
                  required && cfg.mode.accessServerUrl.None? && agent.ps.None? && cfg.mode.personServerFallback.None?)
            && (reply == SigningFailed <==> required && reply != NoAudience && !env.signerWorks)
            && (reply == ServerFailed <==> cfg.mode.ResourceManaged? && env.consent.None?)
            && !reply.TokenRefused? && !reply.SignatureRefused? && reply != InvalidOpaque && reply != AgentTokenRequired
  {
  }

  /** What else a genuine agent can be told: nobody to send it to, no signer, or no consent policy that works. */
  lemma AgentTurnedAwayExactly(cfg: LayerConfig, env: LayerEnv, req: Request, v: Verified)
    requires FromAgent(cfg, env, req, v) && !ByCredential(cfg, req)
    ensures var (reply, agent) := (ReplyTo(cfg, env, req), env.codec.decode(v.jwt.value).agentClaims);
            var required := cfg.mode.PsAsserted? && cfg.mode.requireAuthToken;
            && (reply == NoAudience <==>
                  required && cfg.mode.accessServerUrl.None? && agent.ps.None? && cfg.mode.personServerFallback.None?)
            && (reply == SigningFailed <==> required && reply != NoAudience && !env.signerWorks)
            && (reply == ServerFailed <==> cfg.mode.ResourceManaged? && env.consent.None?)
            && !reply.TokenRefused? && !reply.SignatureRefused? && reply != InvalidOpaque && reply != AgentTokenRequired
  {
    ExtractExactly(req, "");
    VerificationIsWellSigned(cfg, env, req, v);
    DecidedByToken(cfg, env, AccessOf(cfg, req), v);
    AgentAdmitted(cfg, env, env.codec.decode(v.jwt.value).agentClaims, v.thumbprint);
  }
}
