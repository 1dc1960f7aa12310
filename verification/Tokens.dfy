/**
 Tokens and the checks each party makes on them.

 Keys, signatures and thumbprints are ideal: a token carries the key that signed it,
 a signature verifies under exactly that key, and a thumbprint is the tuple of members
 that RFC 7638 hashes. Discovery (metadata, JWKS) and URL validation are functions the
 caller supplies.
 */
module Tokens {
  import opened Prelude
  import opened Text

  const CLOCK_SKEW := 60
  const TWO_63 := 0x8000_0000_0000_0000

  type U64 = x: int | 0 <= x < 0x1_0000_0000_0000_0000

  /** The cast `as i64`. */
  function AsI64(x: U64): (r: int)
    ensures -TWO_63 <= r < TWO_63 && (r == x || r == x - 2 * TWO_63)
  {
    if x < TWO_63 then x else x - 2 * TWO_63
  }

  datatype Jwk = Jwk(kty: string, crv: string, x: string, y: Option<string>, kid: Option<string>)

  /** The members that name a key; `kid` is only a label. */
  datatype Thumb = Thumb(kty: string, crv: string, x: string, y: Option<string>)

  function Thumbprint(jwk: Jwk): (r: Option<Thumb>) {
    if jwk.kty == "OKP" then Some(Thumb(jwk.kty, jwk.crv, jwk.x, None))
    else if jwk.kty == "EC" then Some(Thumb(jwk.kty, jwk.crv, jwk.x, jwk.y))
    else None
  }

  predicate SameKey(a: Jwk, b: Jwk) {
    a.(kid := None) == b.(kid := None)
  }

  datatype InteractionClaim = InteractionClaim(url: string, code: string)

  datatype AgentClaims = AgentClaims(
    iss: string, dwk: string, sub: string, jti: string, cnf: Jwk,
    iat: int, exp: int, ps: Option<string>, parentAgent: Option<string>)

  datatype AuthClaims = AuthClaims(
    iss: string, dwk: string, aud: string, jti: string, agent: string, act: Option<string>, cnf: Jwk,
    iat: int, exp: int, sub: Option<string>, scope: Option<string>)

  datatype ResourceClaims = ResourceClaims(
    iss: string, dwk: string, aud: string, jti: string, agent: string, agentJkt: Thumb,
    iat: U64, exp: U64, scope: Option<string>, interaction: Option<InteractionClaim>)

  /** A compact token: what it says, the key id in its header, and the key that signed it. */
  datatype Jwt =
    | Malformed(text: string)
    | AgentJwt(agentKid: Option<string>, agentClaims: AgentClaims, agentSigner: Jwk)
    | AuthJwt(authKid: Option<string>, authClaims: AuthClaims, authSigner: Jwk)
    | ResourceJwt(resourceKid: Option<string>, resourceClaims: ResourceClaims, resourceSigner: Jwk)

  datatype ParsedToken = Agent(agent: AgentClaims) | Auth(auth: AuthClaims) | Resource(resource: ResourceClaims)

  datatype VerifyError =
    | DecodeFailed | WrongTyp | UnsupportedTyp | ExpectedAuth | InvalidDwk | FutureIat | InvalidIss
    | InvalidPs | InvalidParentAgent | Expired | KeyBindingFailed | UnsupportedKey | UnknownJwks
    | MissingKid | UnknownKid | BadSignature | AgentMismatch | AgentJktMismatch | IssMismatch
    | AudMismatch | InvalidAct | MissingSubAndScope

  /** Key discovery, identifier validation and lower-casing, as the party at hand sees them. */
  datatype Trust = Trust(
    resolve: (string, string) -> Option<string>,
    jwks: string -> Option<map<string, Jwk>>,
    validServer: string -> bool,
    validAgent: string -> bool,
    lower: string -> string)

  function TrimSlash(url: string): (r: string)
    ensures r == "" || r[|r| - 1] != '/'
  {
    TrimEndChar(url, '/')
  }

  function Normalize(trust: Trust, url: string): (r: string) {
    trust.lower(TrimSlash(url))
  }

  /** Decode without checking the signature. */
  function Parse(jwt: Jwt): (r: Result<ParsedToken, VerifyError>) {
    match jwt
    case Malformed(_) => Err(DecodeFailed)
    case AgentJwt(_, c, _) => Ok(Agent(c))
    case AuthJwt(_, c, _) => if c.sub.None? && c.scope.None? then Err(MissingSubAndScope) else Ok(Auth(c))
    case ResourceJwt(_, c, _) => Ok(Resource(c))
  }

  function Exp(token: ParsedToken): (r: int) {
    match token
    case Agent(c) => c.exp
    case Auth(c) => c.exp
    case Resource(c) => AsI64(c.exp)
  }

  function Iss(token: ParsedToken): (r: string) {
    match token
    case Agent(c) => c.iss
    case Auth(c) => c.iss
    case Resource(c) => c.iss
  }

  function Dwk(token: ParsedToken): (r: string) {
    match token
    case Agent(c) => c.dwk
    case Auth(c) => c.dwk
    case Resource(c) => c.dwk
  }

  function Kid(jwt: Jwt): (r: Option<string>) {
    match jwt
    case Malformed(_) => None
    case AgentJwt(kid, _, _) => kid
    case AuthJwt(kid, _, _) => kid
    case ResourceJwt(kid, _, _) => kid
  }

  predicate SignedBy(jwt: Jwt, key: Jwk) {
    match jwt
    case Malformed(_) => false
    case AgentJwt(_, _, signer) => SameKey(signer, key)
    case AuthJwt(_, _, signer) => SameKey(signer, key)
    case ResourceJwt(_, _, signer) => SameKey(signer, key)
  }

  /** Check the signature and, with the same leeway, the expiry. */
  function VerifyWithKey(jwt: Jwt, key: Jwk, now: int): (r: Result<ParsedToken, VerifyError>) {
    match Parse(jwt)
    case Err(e) => Err(e)
    case Ok(token) =>
      if !SignedBy(jwt, key) then Err(BadSignature)
      else if Exp(token) < now - CLOCK_SKEW then Err(Expired)
      else Ok(token)
  }

  /** Resolve the issuer's keys and pick the one the header names. */
  function FetchDecodingKey(iss: string, dwk: string, trust: Trust, jwt: Jwt): (r: Result<Jwk, VerifyError>) {
    match trust.resolve(iss, dwk)
    case None => Err(UnknownJwks)
    case Some(uri) =>
      match trust.jwks(uri)
      case None => Err(UnknownJwks)
      case Some(keys) =>
        match Kid(jwt)
        case None => Err(MissingKid)
        case Some(kid) => if kid in keys then Ok(keys[kid]) else Err(UnknownKid)
  }

  /** Discovery at an issuer finds this key under this id. */
  predicate Publishes(trust: Trust, iss: string, dwk: string, kid: Option<string>, key: Jwk) {
    && kid.Some? && trust.resolve(iss, dwk).Some?
    && trust.jwks(trust.resolve(iss, dwk).value).Some?
    && kid.value in trust.jwks(trust.resolve(iss, dwk).value).value
    && SameKey(key, trust.jwks(trust.resolve(iss, dwk).value).value[kid.value])
  }

  /** The issuer publishes the signer's key under the id in the header. */
  predicate IssuerSigned(iss: string, dwk: string, trust: Trust, jwt: Jwt) {
    match jwt
    case Malformed(_) => false
    case AgentJwt(kid, _, signer) => Publishes(trust, iss, dwk, kid, signer)
    case AuthJwt(kid, _, signer) => Publishes(trust, iss, dwk, kid, signer)
    case ResourceJwt(kid, _, signer) => Publishes(trust, iss, dwk, kid, signer)
  }

  function ValidateAgentClaims(agent: AgentClaims, trust: Trust, now: int): (r: Option<VerifyError>) {
    if agent.dwk != "aauth-agent.json" then Some(InvalidDwk)
    else if agent.iat > now + CLOCK_SKEW then Some(FutureIat)
    else if !trust.validServer(agent.iss) then Some(InvalidIss)
    else if agent.ps.Some? && !trust.validServer(agent.ps.value) then Some(InvalidPs)
    else if agent.parentAgent.Some? && !trust.validAgent(agent.parentAgent.value) then Some(InvalidParentAgent)
    else None
  }

  function Cnf(token: ParsedToken): (r: Option<Jwk>) {
    match token
    case Agent(c) => Some(c.cnf)
    case Auth(c) => Some(c.cnf)
    case Resource(_) => None
  }

  /** An agent or auth token presented with an HTTP signature made by the key `thumb`. */
  function VerifyToken(jwt: Jwt, thumb: Thumb, trust: Trust, now: int): (r: Result<ParsedToken, VerifyError>) {
    match Parse(jwt)
    case Err(e) => Err(e)
    case Ok(token) =>
      var claimsError :=
        match token
        case Agent(agent) => ValidateAgentClaims(agent, trust, now)
        case Auth(_) => None
        case Resource(_) => Some(UnsupportedTyp);
      if claimsError.Some? then Err(claimsError.value)
      else if Exp(token) < now - CLOCK_SKEW then Err(Expired)
      else
        match Thumbprint(Cnf(token).value)
        case None => Err(UnsupportedKey)
        case Some(cnfThumb) =>
          if cnfThumb != thumb then Err(KeyBindingFailed)
          else match FetchDecodingKey(Iss(token), Dwk(token), trust, jwt)
            case Err(e) => Err(e)
            case Ok(key) => VerifyWithKey(jwt, key, now)
  }

  function VerifyResourceToken(jwt: Jwt, expectedAgent: Option<string>, expectedJkt: Option<Thumb>, trust: Trust, now: int)
    : (r: Result<ResourceClaims, VerifyError>)
  {
    match Parse(jwt)
    case Err(e) => Err(e)
    case Ok(Agent(_)) => Err(WrongTyp)
    case Ok(Auth(_)) => Err(WrongTyp)
    case Ok(Resource(claims)) =>
      if AsI64(claims.exp) < now - CLOCK_SKEW then Err(Expired)
      else if claims.dwk != "aauth-resource.json" then Err(InvalidDwk)
      else if expectedAgent.Some? && claims.agent != expectedAgent.value then Err(AgentMismatch)
      else if expectedJkt.Some? && claims.agentJkt != expectedJkt.value then Err(AgentJktMismatch)
      else match FetchDecodingKey(claims.iss, claims.dwk, trust, jwt)
        case Err(e) => Err(e)
        case Ok(key) =>
          match VerifyWithKey(jwt, key, now)
          case Err(e) => Err(e)
          case Ok(Resource(c)) => Ok(c)
          case Ok(_) => Err(BadSignature)
  }

  predicate AuthTokenBound(auth: AuthClaims, resourceUrl: string, trust: Trust) {
    Normalize(trust, auth.aud) == Normalize(trust, resourceUrl)
  }

  /** The agent's claim checks on an auth token it was given. */
  function ClientAuthTokenClaims(
    auth: AuthClaims, resourceUrl: string, resourceTokenAud: string, agentSub: string, agentJkt: Thumb,
    trust: Trust, now: int): (r: Option<VerifyError>)
  {
    if auth.exp < now - CLOCK_SKEW then Some(Expired)
    else if Normalize(trust, auth.iss) != Normalize(trust, resourceTokenAud) then Some(IssMismatch)
    else if !AuthTokenBound(auth, resourceUrl, trust) then Some(AudMismatch)
    else
      match Thumbprint(auth.cnf)
      case None => Some(UnsupportedKey)
      case Some(thumb) =>
        if thumb != agentJkt then Some(KeyBindingFailed)
        else if auth.agent != agentSub then Some(AgentMismatch)
        else if auth.act.Some? && (auth.act.value == "" || !("aauth:" <= auth.act.value)) then Some(InvalidAct)
        else None
  }

  function VerifyClientAuthToken(
    jwt: Jwt, resourceUrl: string, resourceTokenAud: string, agentSub: string, agentJkt: Thumb,
    trust: Trust, verifySignature: bool, now: int): (r: Result<AuthClaims, VerifyError>)
  {
    match Parse(jwt)
    case Err(e) => Err(e)
    case Ok(Agent(_)) => Err(ExpectedAuth)
    case Ok(Resource(_)) => Err(ExpectedAuth)
    case Ok(Auth(auth)) =>
      match ClientAuthTokenClaims(auth, resourceUrl, resourceTokenAud, agentSub, agentJkt, trust, now)
      case Some(e) => Err(e)
      case None =>
        if !verifySignature then Ok(auth)
        else match FetchDecodingKey(auth.iss, auth.dwk, trust, jwt)
          case Err(e) => Err(e)
          case Ok(key) =>
            match VerifyWithKey(jwt, key, now)
            case Err(e) => Err(e)
            case Ok(Auth(c)) => Ok(c)
            case Ok(_) => Err(ExpectedAuth)
  }

  /** The agent's check on the resource token of a 401 challenge. */
  function VerifyResourceChallenge(
    jwt: Jwt, resourceUrl: string, agentSub: string, agentJkt: Thumb, trust: Trust, now: int)
    : (r: Result<ResourceClaims, VerifyError>)
  {
    match VerifyResourceToken(jwt, Some(agentSub), Some(agentJkt), trust, now)
    case Err(e) => Err(e)
    case Ok(claims) =>
      if Normalize(trust, claims.iss) != Normalize(trust, resourceUrl) then Err(IssMismatch) else Ok(claims)
  }

  /** The Person Server's check on an auth token an Access Server minted. */
  function VerifyFederatedAuthToken(
    authJwt: Jwt, expectedIss: string, expectedAud: string, agentJwt: Jwt, trust: Trust, now: int)
    : (r: Option<VerifyError>)
  {
    match Parse(agentJwt)
    case Err(e) => Some(e)
    case Ok(Auth(_)) => Some(WrongTyp)
    case Ok(Resource(_)) => Some(WrongTyp)
    case Ok(Agent(agent)) =>
      match Thumbprint(agent.cnf)
      case None => Some(UnsupportedKey)
      case Some(jkt) =>
        match VerifyToken(authJwt, jkt, trust, now)
        case Err(e) => Some(e)
        case Ok(Agent(_)) => Some(ExpectedAuth)
        case Ok(Resource(_)) => Some(ExpectedAuth)
        case Ok(Auth(auth)) =>
          if TrimSlash(auth.iss) != TrimSlash(expectedIss) then Some(IssMismatch)
          else if TrimSlash(auth.aud) != TrimSlash(expectedAud) then Some(AudMismatch)
          else if auth.agent != agent.sub then Some(AgentMismatch)
          else None
  }

  const AUTH_TOKEN_LIFETIME := 3600

  /** The auth token a Person or Access Server mints with its own key. */
  function EncodeAuthJwt(
    key: Jwk, kid: Option<string>, dwk: string, iss: string, aud: string, agent: string, agentJwk: Jwk,
    sub: Option<string>, scope: Option<string>, now: int, jti: string): (r: Jwt)
  {
    AuthJwt(kid,
            AuthClaims(iss, dwk, aud, jti, agent, None, agentJwk, now, now + AUTH_TOKEN_LIFETIME, sub, scope),
            key)
  }

  datatype TokenResponse = TokenResponse(authToken: Jwt, expiresIn: nat)

  /** Slashes at the end of a URL do not count, and for the agent and the resource neither does its case. */
  lemma UrlsExactly(trust: Trust, url: string, slashes: string)
    requires (url == "" || url[|url| - 1] != '/') && forall i :: 0 <= i < |slashes| ==> slashes[i] == '/'
    ensures TrimSlash(url + slashes) == url
    ensures Normalize(trust, url + slashes) == trust.lower(url)
  {
    TrimEndCharExactly(url, slashes, '/');
  }

  // ----- what acceptance means -----

  /** Two keys have the same thumbprint exactly when they agree in the members RFC 7638 hashes for their type. */
  lemma ThumbprintExactly(a: Jwk, b: Jwk)
    ensures Thumbprint(a).Some? <==> a.kty == "OKP" || a.kty == "EC"
    ensures Thumbprint(a).Some? ==>
              (Thumbprint(a) == Thumbprint(b) <==>
                 a.kty == b.kty && a.crv == b.crv && a.x == b.x && (a.kty == "EC" ==> a.y == b.y))
  {
  }

  /** The claims an agent token must make about itself. */
  predicate AgentClaimsOk(agent: AgentClaims, trust: Trust, now: int) {
    && agent.dwk == "aauth-agent.json" && agent.iat <= now + 60
    && trust.validServer(agent.iss)
    && (agent.ps.Some? ==> trust.validServer(agent.ps.value))
    && (agent.parentAgent.Some? ==> trust.validAgent(agent.parentAgent.value))
  }

  /** A presented agent or auth token is genuine, unexpired and bound to the signing key. */
  predicate PresentedOk(jwt: Jwt, thumb: Thumb, trust: Trust, now: int) {
    match jwt
    case Malformed(_) => false
    case ResourceJwt(_, _, _) => false
    case AgentJwt(kid, c, signer) =>
      && AgentClaimsOk(c, trust, now) && now <= c.exp + 60
      && Thumbprint(c.cnf) == Some(thumb) && Publishes(trust, c.iss, c.dwk, kid, signer)
    case AuthJwt(kid, c, signer) =>
      && (c.sub.Some? || c.scope.Some?) && now <= c.exp + 60
      && Thumbprint(c.cnf) == Some(thumb) && Publishes(trust, c.iss, c.dwk, kid, signer)
  }

  function ClaimsOf(jwt: Jwt): (r: ParsedToken)
    requires !jwt.Malformed?
  {
    match jwt
    case AgentJwt(_, c, _) => Agent(c)
    case AuthJwt(_, c, _) => Auth(c)
    case ResourceJwt(_, c, _) => Resource(c)
  }

  /** Exactly such a token is accepted, for what it says. */
  lemma VerifyTokenExactly(jwt: Jwt, thumb: Thumb, trust: Trust, now: int)
    ensures VerifyToken(jwt, thumb, trust, now).Ok? <==> PresentedOk(jwt, thumb, trust, now)
    ensures VerifyToken(jwt, thumb, trust, now).Ok? ==> VerifyToken(jwt, thumb, trust, now) == Parse(jwt) == Ok(ClaimsOf(jwt))
  {
  }

  /** A resource token for the expected agent and key, vouched for by its resource. */
  predicate ResourceTokenOk(jwt: Jwt, agent: Option<string>, jkt: Option<Thumb>, trust: Trust, now: int) {
    && jwt.ResourceJwt?
    && var c := jwt.resourceClaims;
    && now <= AsI64(c.exp) + 60 && c.dwk == "aauth-resource.json"
    && (agent.Some? ==> c.agent == agent.value)
    && (jkt.Some? ==> c.agentJkt == jkt.value)
    && Publishes(trust, c.iss, c.dwk, jwt.resourceKid, jwt.resourceSigner)
  }

  /** Exactly such a token is accepted, for what it says. */
  lemma ResourceTokenExactly(jwt: Jwt, agent: Option<string>, jkt: Option<Thumb>, trust: Trust, now: int)
    ensures var r := VerifyResourceToken(jwt, agent, jkt, trust, now);
            && (r.Ok? <==> ResourceTokenOk(jwt, agent, jkt, trust, now))
            && (r.Ok? ==> r == Ok(jwt.resourceClaims))
  {
  }

  /** A live resource token that names another agent, or another key, is refused as such before any key is looked up. */
  lemma WrongHolderRefused(jwt: Jwt, agent: string, jkt: Thumb, trust: Trust, now: int)
    requires jwt.ResourceJwt? && now <= AsI64(jwt.resourceClaims.exp) + 60 && jwt.resourceClaims.dwk == "aauth-resource.json"
    ensures VerifyResourceToken(jwt, Some(agent), Some(jkt), trust, now) == Err(AgentMismatch) <==> jwt.resourceClaims.agent != agent
    ensures VerifyResourceToken(jwt, Some(agent), Some(jkt), trust, now) == Err(AgentJktMismatch)
            <==> jwt.resourceClaims.agent == agent && jwt.resourceClaims.agentJkt != jkt
  {
  }

  /** An expiry beyond the signed range wraps round to the past: such a token is never accepted. */
  lemma HugeExpiryRefused(jwt: Jwt, agent: Option<string>, jkt: Option<Thumb>, trust: Trust, now: int)
    requires jwt.ResourceJwt? && jwt.resourceClaims.exp >= TWO_63 && now >= 60
    ensures VerifyResourceToken(jwt, agent, jkt, trust, now) == Err(Expired)
  {
  }

  /** What the agent accepts in a challenge: a good token for itself and its key, from the resource it asked. */
  lemma ResourceChallengeExactly(jwt: Jwt, resourceUrl: string, agentSub: string, agentJkt: Thumb, trust: Trust, now: int)
    ensures var r := VerifyResourceChallenge(jwt, resourceUrl, agentSub, agentJkt, trust, now);
            && (r.Ok? <==> ResourceTokenOk(jwt, Some(agentSub), Some(agentJkt), trust, now)
                           && Normalize(trust, jwt.resourceClaims.iss) == Normalize(trust, resourceUrl))
            && (r.Ok? ==> r == Ok(jwt.resourceClaims))
  {
    ResourceTokenExactly(jwt, Some(agentSub), Some(agentJkt), trust, now);
  }

  /** What the agent accepts as the outcome of an exchange. */
  predicate ObtainedOk(
    jwt: Jwt, resourceUrl: string, resourceTokenAud: string, agentSub: string, agentJkt: Thumb,
    trust: Trust, verifySignature: bool, now: int)
  {
    && jwt.AuthJwt?
    && var c := jwt.authClaims;
    && (c.sub.Some? || c.scope.Some?) && now <= c.exp + 60
    && Normalize(trust, c.iss) == Normalize(trust, resourceTokenAud)
    && Normalize(trust, c.aud) == Normalize(trust, resourceUrl)
    && Thumbprint(c.cnf) == Some(agentJkt) && c.agent == agentSub
    && (c.act.Some? ==> "aauth:" <= c.act.value)
    && (verifySignature ==> Publishes(trust, c.iss, c.dwk, jwt.authKid, jwt.authSigner))
  }

  /** Exactly such a token is accepted, for what it says. */
  lemma ClientAuthTokenExactly(
    jwt: Jwt, resourceUrl: string, resourceTokenAud: string, agentSub: string, agentJkt: Thumb,
    trust: Trust, verifySignature: bool, now: int)
    ensures var r := VerifyClientAuthToken(jwt, resourceUrl, resourceTokenAud, agentSub, agentJkt, trust, verifySignature, now);
            && (r.Ok? <==> ObtainedOk(jwt, resourceUrl, resourceTokenAud, agentSub, agentJkt, trust, verifySignature, now))
            && (r.Ok? ==> r == Ok(jwt.authClaims))
  {
  }

  /** A token the Access Server at `iss` minted for the agent and key that it was asked for, and for `aud`. */
  predicate FederatedTokenOk(authJwt: Jwt, iss: string, aud: string, agentJwt: Jwt, trust: Trust, now: int) {
    && agentJwt.AgentJwt? && authJwt.AuthJwt?
    && var (agent, auth) := (agentJwt.agentClaims, authJwt.authClaims);
    && Thumbprint(agent.cnf).Some? && Thumbprint(auth.cnf) == Thumbprint(agent.cnf) && auth.agent == agent.sub
    && TrimSlash(auth.iss) == TrimSlash(iss) && TrimSlash(auth.aud) == TrimSlash(aud)
    && (auth.sub.Some? || auth.scope.Some?) && now <= auth.exp + 60
    && Publishes(trust, auth.iss, auth.dwk, authJwt.authKid, authJwt.authSigner)
  }

  /** Exactly such a token passes the Person Server's check. */
  lemma FederatedExactly(authJwt: Jwt, iss: string, aud: string, agentJwt: Jwt, trust: Trust, now: int)
    ensures VerifyFederatedAuthToken(authJwt, iss, aud, agentJwt, trust, now).None?
            <==> FederatedTokenOk(authJwt, iss, aud, agentJwt, trust, now)
  {
    if agentJwt.AgentJwt? && Thumbprint(agentJwt.agentClaims.cnf).Some? {
      VerifyTokenExactly(authJwt, Thumbprint(agentJwt.agentClaims.cnf).value, trust, now);
    }
  }

  /** The server's case-sensitive comparison implies the agent's case-insensitive one. */
  lemma TrimmedImpliesNormalized(a: string, b: string, trust: Trust)
    requires TrimSlash(a) == TrimSlash(b)
    ensures Normalize(trust, a) == Normalize(trust, b)
  {
  }
}
