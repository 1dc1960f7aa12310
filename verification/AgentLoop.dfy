/**
 The agent middleware's retry loop against a resource.

 The loop has no bound of its own. It ends, in a number of rounds linear in the
 credentials cached for the origin, against a resource that accepts the credentials it
 issued during the run, does not defer the auth tokens cached at its start, and ends its
 other deferrals. The last section shows, for each of these conditions, how a resource
 that breaks it keeps the call going for any number of rounds.
 */
module AgentLoop {
  import opened Prelude
  import opened AgentCaches
  import Headers

  datatype Exchange = Exchange(personServer: string, token: string, expiresIn: nat, recordedAt: nat)

  /** What happens outside, by round; None stands for any error, which ends the call. */
  datatype Env = Env(
    clock: nat -> nat,
    respond: (nat, Attempt) -> Option<Response>,
    poll: (nat, Response) -> Option<Response>,
    exchange: (nat, string) -> Option<Exchange>,
    endpoint: bool, authorizeReply: Option<Response>, authorizePoll: Option<Response>)

  datatype Outcome = Again | Returned(reply: Option<Response>)

  /** Which cached token each scan of one round meets first. */
  datatype Scans = Scans(attempt: Option<TokenKey>, reply: Option<TokenKey>, polled: Option<TokenKey>)

  predicate ValidScans(env: Env, n: nat, v: OriginView, s: Scans) {
    && IsFirst(v, s.attempt)
    && var (v1, attempt) := Attempted(v, s.attempt, env.clock(n));
       IsFirst(v1, s.reply)
       && (env.respond(n, attempt).Some? ==> IsFirst(Observed(v1, attempt, env.respond(n, attempt).value, s.reply).0, s.polled))
  }

  /** One turn of the loop. */
  function RoundOf(env: Env, origin: string, n: nat, v: OriginView, s: Scans): (r: (OriginView, Outcome))
    requires ValidScans(env, n, v, s)
  {
    var (v1, attempt) := Attempted(v, s.attempt, env.clock(n));
    match env.respond(n, attempt)
    case None => (v1, Returned(None))
    case Some(resp) =>
      var (v2, step) := Observed(v1, attempt, resp, s.reply);
      match step
      case Err(_) => (v2, Returned(None))
      case Ok(Finish) => (v2, Returned(Some(resp)))
      case Ok(RetryWithOpaque) => (v2, Again)
      case Ok(Invalidate(_)) => (v2, Again)
      case Ok(PollDeferred) => Polled(env, n, v2, attempt, resp, s.polled)
      case Ok(ExchangeToken(resourceToken)) =>
        match env.exchange(n, resourceToken)
        case None => (v2, Returned(None))
        case Some(x) => (Recorded(v2, origin, x), Again)
  }

  function Polled(env: Env, n: nat, v: OriginView, attempt: Attempt, resp: Response, first: Option<TokenKey>): (r: (OriginView, Outcome))
    requires IsFirst(v, first)
  {
    if resp.location.None? then (v, Returned(None))
    else
      match env.poll(n, resp)
      case None => (v, Returned(None))
      case Some(result) =>
        var (v', step) := Observed(v, attempt, result, first);
        if step.Err? then (v', Returned(None))
        else if step.value.Finish? || step.value.RetryWithOpaque? then (v', Again)
        else (v', Returned(Some(result)))
  }

  function Recorded(v: OriginView, origin: string, x: Exchange): (r: OriginView) {
    v.(tokens := v.tokens[TokenKey(origin, x.personServer) := CacheEntry(x)])
  }

  function CacheEntry(x: Exchange): (r: CachedToken) {
    CachedToken(x.token, x.recordedAt + x.expiresIn * SECOND)
  }

  // ----- an honest resource -----

  /** The resource token with which round `n` challenges an agent-signed request. */
  function ChallengeAt(env: Env, n: nat): (r: Option<string>) {
    match env.respond(n, AgentSigned)
    case None => None
    case Some(resp) =>
      if resp.status != 401 || resp.requirement.None? then None
      else
        match Headers.FromHeader(resp.requirement.value)
        case Ok(AuthTokenNeeded(resourceToken)) => Some(resourceToken)
        case _ => None
  }

  /** What the agent exchanges it for. */
  function ExchangedAt(env: Env, n: nat): (r: Option<Exchange>) {
    if ChallengeAt(env, n).Some? then env.exchange(n, ChallengeAt(env, n).value) else None
  }

  ghost predicate Issued(env: Env, token: string, n: nat) {
    exists k: nat :: k < n && ExchangedAt(env, k).Some? && ExchangedAt(env, k).value.token == token
  }

  predicate GrantsAccess(resp: Option<Response>, token: string) {
    resp.Some? && resp.value.status != 401 && AccessOf(resp.value) == Some(token)
  }

  /** What polling ends with, when round `n` defers this attempt to some location. */
  function PolledAt(env: Env, n: nat, a: Attempt): (r: Option<Response>) {
    match env.respond(n, a)
    case None => None
    case Some(resp) => if resp.status == 202 && resp.location.Some? then env.poll(n, resp) else None
  }

  /** Round `n` grants the token, at once to an agent-signed request or after polling to any request without an auth token. */
  predicate GrantsAt(env: Env, n: nat, a: Attempt, token: string) {
    && !a.AuthTokenAttempt?
    && ((a.AgentSigned? && GrantsAccess(env.respond(n, a), token)) || GrantsAccess(PolledAt(env, n, a), token))
  }

  ghost predicate Granted(env: Env, token: string, n: nat) {
    exists k: nat, a: Attempt :: k < n && GrantsAt(env, k, a, token)
  }

  predicate Accepts(resp: Option<Response>) {
    resp.Some? ==> resp.value.status !in {401, 202}
  }

  /** The credentials issued in this run are accepted from then on. */
  ghost predicate AcceptsIssued(env: Env) {
    && (forall n: nat, t: string :: Issued(env, t, n) ==> Accepts(env.respond(n, AuthTokenAttempt(t))))
    && (forall n: nat, t: string :: Granted(env, t, n) ==> Accepts(env.respond(n, OpaqueAttempt(t))))
  }

  /** The auth tokens cached at the start of the run are not deferred. */
  ghost predicate DefersNone(env: Env, cached: set<string>) {
    forall n: nat, t: string :: t in cached && env.respond(n, AuthTokenAttempt(t)).Some? ==>
      env.respond(n, AuthTokenAttempt(t)).value.status != 202
  }

  /** A polled reply the loop returns to its caller instead of trying again. */
  predicate HandedBack(a: Attempt, result: Response) {
    || result.status == 202
    || (result.status == 401 && !a.AgentSigned?)
    || (result.status == 401 && result.requirement.Some?
        && var c := Headers.FromHeader(result.requirement.value); c.Err? || c.value.AuthTokenNeeded?)
  }

  /** A deferral ends in an access grant, an error, or a reply that is handed back. */
  predicate EndsWell(a: Attempt, result: Response) {
    HandedBack(a, result) || (result.status != 401 && AccessOf(result).Some?)
  }

  /** Every deferral of a request without an auth token does. */
  ghost predicate DeferralsEnd(env: Env) {
    forall n: nat, a: Attempt :: !a.AuthTokenAttempt? && PolledAt(env, n, a).Some? ==> EndsWell(a, PolledAt(env, n, a).value)
  }

  ghost predicate Honest(env: Env, cached: set<string>) {
    AcceptsIssued(env) && DefersNone(env, cached) && DeferralsEnd(env)
  }

  function Texts(v: OriginView): (r: set<string>) {
    set key | key in v.tokens :: v.tokens[key].authToken
  }

  /** Every cached auth token was there at the start or was issued since. */
  ghost predicate Known(env: Env, cached: set<string>, n: nat, v: OriginView) {
    forall t :: t in Texts(v) ==> t in cached || Issued(env, t, n)
  }

  /** Tokens issued in the run outlive `limit` by more than the 60 s the cache insists on. */
  ghost predicate Lasting(env: Env, limit: nat) {
    forall k: nat :: ExchangedAt(env, k).Some? ==>
      var x := ExchangedAt(env, k).value;
      x.recordedAt + x.expiresIn * SECOND > limit + 60 * SECOND
  }

  // ----- the measure -----

  ghost predicate Good(env: Env, n: nat, limit: nat, cached: CachedToken) {
    Issued(env, cached.authToken, n) && cached.expiresAt > limit + 60 * SECOND
  }

  ghost function StaleKeys(env: Env, n: nat, limit: nat, v: OriginView): (r: set<TokenKey>) {
    set key | key in v.tokens && !Good(env, n, limit, v.tokens[key])
  }

  ghost predicate StaleOpaque(env: Env, n: nat, v: OriginView) {
    v.opaqueToken.Some? && !Granted(env, v.opaqueToken.value, n)
  }

  /** Two for every stale credential, one for every good auth token. */
  ghost function Weight(env: Env, n: nat, limit: nat, v: OriginView): (r: nat) {
    |v.tokens| + |StaleKeys(env, n, limit, v)| + if StaleOpaque(env, n, v) then 2 else 0
  }

  /** First get rid of stale credentials, then obtain a good one, then present it. */
  ghost function Rank(env: Env, n: nat, limit: nat, v: OriginView): (r: nat)
    ensures r >= 1
  {
    if StaleKeys(env, n, limit, v) != {} || StaleOpaque(env, n, v) then Weight(env, n, limit, v) + 2
    else if v.tokens == map[] && v.opaqueToken.None? then 2
    else 1
  }

  lemma RankAgainstWeight(env: Env, n: nat, limit: nat, v: OriginView)
    ensures Rank(env, n, limit, v) <= Weight(env, n, limit, v) + 2
    ensures StaleKeys(env, n, limit, v) != {} || StaleOpaque(env, n, v) ==> Rank(env, n, limit, v) == Weight(env, n, limit, v) + 2
  {
  }

  lemma {:induction false} SubsetSize<T>(a: set<T>, b: set<T>)
    requires a <= b
    ensures |a| <= |b|
  {
    if a != {} {
      var x :| x in a;
      SubsetSize(a - {x}, b - {x});
    }
  }

  lemma MapSize<K, V>(m: map<K, V>)
    ensures |m| == |m.Keys|
  {
  }

  /** What was good stays good. */
  lemma GoodStays(env: Env, n: nat, limit: nat, v: OriginView)
    ensures StaleKeys(env, n + 1, limit, v) <= StaleKeys(env, n, limit, v)
    ensures StaleOpaque(env, n + 1, v) ==> StaleOpaque(env, n, v)
  {
    forall t | Issued(env, t, n) ensures Issued(env, t, n + 1) {
      var k: nat :| k < n && ExchangedAt(env, k).Some? && ExchangedAt(env, k).value.token == t;
    }
    if v.opaqueToken.Some? && Granted(env, v.opaqueToken.value, n) {
      var k: nat, a: Attempt :| k < n && GrantsAt(env, k, a, v.opaqueToken.value);
    }
  }

  /** Dropping cached tokens: each stale one weighs two, each good one weighs one. */
  lemma DropWeight(env: Env, n: nat, limit: nat, v: OriginView, key: TokenKey)
    requires key in v.tokens
    ensures var v' := v.(tokens := v.tokens - {key});
            && StaleKeys(env, n, limit, v') == StaleKeys(env, n, limit, v) - {key}
            && Weight(env, n, limit, v') == Weight(env, n, limit, v) - if key in StaleKeys(env, n, limit, v) then 2 else 1
  {
    var v' := v.(tokens := v.tokens - {key});
    MapSize(v.tokens);
    MapSize(v'.tokens);
    assert v'.tokens.Keys == v.tokens.Keys - {key};
    DropStale(env, n, limit, v, key);
  }

  lemma DropStale(env: Env, n: nat, limit: nat, v: OriginView, key: TokenKey)
    requires key in v.tokens
    ensures StaleKeys(env, n, limit, v.(tokens := v.tokens - {key})) == StaleKeys(env, n, limit, v) - {key}
  {
  }

  lemma WeightNextRound(env: Env, n: nat, limit: nat, v: OriginView)
    ensures Weight(env, n + 1, limit, v) <= Weight(env, n, limit, v)
  {
    GoodStays(env, n, limit, v);
    SubsetSize(StaleKeys(env, n + 1, limit, v), StaleKeys(env, n, limit, v));
  }

  lemma PutGood(env: Env, n: nat, limit: nat, v: OriginView, key: TokenKey, cached: CachedToken)
    requires Good(env, n, limit, cached)
    ensures StaleKeys(env, n, limit, v.(tokens := v.tokens[key := cached])) <= StaleKeys(env, n, limit, v)
  {
  }

  lemma PutSize(tokens: map<TokenKey, CachedToken>, key: TokenKey, cached: CachedToken)
    ensures |tokens[key := cached]| <= |tokens| + 1
  {
    MapSize(tokens);
    MapSize(tokens[key := cached]);
    assert tokens[key := cached].Keys == tokens.Keys + {key};
    SubsetSize(tokens[key := cached].Keys, tokens.Keys + {key});
  }

  lemma ExchangedIsGood(env: Env, n: nat, limit: nat, x: Exchange)
    requires Lasting(env, limit) && ExchangedAt(env, n) == Some(x)
    ensures Good(env, n + 1, limit, CacheEntry(x))
  {
    assert Issued(env, x.token, n + 1);
  }

  lemma PutWeight(env: Env, n: nat, limit: nat, v: OriginView, key: TokenKey, cached: CachedToken)
    requires Good(env, n + 1, limit, cached)
    ensures var v' := v.(tokens := v.tokens[key := cached]);
            && Weight(env, n + 1, limit, v') <= Weight(env, n, limit, v) + 1
            && StaleKeys(env, n + 1, limit, v') <= StaleKeys(env, n, limit, v)
  {
    var v' := v.(tokens := v.tokens[key := cached]);
    GoodStays(env, n, limit, v);
    PutGood(env, n + 1, limit, v, key, cached);
    PutSize(v.tokens, key, cached);
    SubsetSize(StaleKeys(env, n + 1, limit, v'), StaleKeys(env, n, limit, v));
  }

  /** An issued token adds at most one to the weight, and leaves a good credential. */
  lemma RecordWeight(env: Env, origin: string, n: nat, limit: nat, v: OriginView, x: Exchange)
    requires Lasting(env, limit) && ExchangedAt(env, n) == Some(x)
    ensures var v' := Recorded(v, origin, x);
            && Weight(env, n + 1, limit, v') <= Weight(env, n, limit, v) + 1
            && StaleKeys(env, n + 1, limit, v') <= StaleKeys(env, n, limit, v)
  {
    ExchangedIsGood(env, n, limit, x);
    PutWeight(env, n, limit, v, TokenKey(origin, x.personServer), CacheEntry(x));
  }

  // ----- every round that goes on lowers the rank -----

  /** A good token is offered, never dropped for its age. */
  lemma GoodIsOffered(env: Env, n: nat, limit: nat, v: OriginView, key: TokenKey)
    requires key in v.tokens && env.clock(n) <= limit
    ensures key !in StaleKeys(env, n, limit, v) ==>
              && Attempted(v, Some(key), env.clock(n)).1 == AuthTokenAttempt(v.tokens[key].authToken)
              && Issued(env, v.tokens[key].authToken, n)
  {
  }

  /** The view between the attempt and the reply, when no auth token was offered. */
  lemma FellBack(env: Env, n: nat, limit: nat, v: OriginView, first: Option<TokenKey>)
    requires IsFirst(v, first) && env.clock(n) <= limit
    requires !Attempted(v, first, env.clock(n)).1.AuthTokenAttempt?
    ensures var (v1, attempt) := Attempted(v, first, env.clock(n));
            && v1.opaqueToken == v.opaqueToken && attempt == FallBack(v)
            && StaleKeys(env, n, limit, v1) <= StaleKeys(env, n, limit, v)
            && (first.None? ==> v1 == v && v.tokens == map[])
            && (first.Some? ==> first.value in StaleKeys(env, n, limit, v)
                                && Weight(env, n, limit, v1) == Weight(env, n, limit, v) - 2)
  {
    if first.Some? {
      GoodIsOffered(env, n, limit, v, first.value);
      DropWeight(env, n, limit, v, first.value);
    }
  }

  /** An auth token was refused: it was stale, and some cached token goes. */
  lemma RefusedAuth(env: Env, n: nat, limit: nat, v: OriginView, refused: TokenKey, dropped: TokenKey)
    requires refused in StaleKeys(env, n, limit, v) && dropped in v.tokens
    ensures Rank(env, n + 1, limit, v.(tokens := v.tokens - {dropped})) < Rank(env, n, limit, v)
  {
    var v' := v.(tokens := v.tokens - {dropped});
    DropWeight(env, n, limit, v, dropped);
    WeightNextRound(env, n, limit, v');
    RankAgainstWeight(env, n, limit, v);
    RankAgainstWeight(env, n + 1, limit, v');
  }

  /** An opaque token was refused: it was stale. */
  lemma RefusedOpaque(env: Env, n: nat, limit: nat, v: OriginView, first: Option<TokenKey>)
    requires IsFirst(v, first) && env.clock(n) <= limit
    requires !Attempted(v, first, env.clock(n)).1.AuthTokenAttempt? && StaleOpaque(env, n, v)
    ensures Rank(env, n + 1, limit, Attempted(v, first, env.clock(n)).0.(opaqueToken := None)) < Rank(env, n, limit, v)
  {
    FellBack(env, n, limit, v, first);
    var v1 := Attempted(v, first, env.clock(n)).0;
    var v2 := v1.(opaqueToken := None);
    assert StaleKeys(env, n, limit, v2) == StaleKeys(env, n, limit, v1);
    WeightNextRound(env, n, limit, v2);
  }

  /** An agent-signed request was answered with a credential. */
  lemma Gained(env: Env, n: nat, limit: nat, v: OriginView, first: Option<TokenKey>, v2: OriginView)
    requires IsFirst(v, first) && env.clock(n) <= limit
    requires Attempted(v, first, env.clock(n)).1.AgentSigned?
    requires var v1 := Attempted(v, first, env.clock(n)).0;
             && Weight(env, n + 1, limit, v2) <= Weight(env, n, limit, v1) + 1
             && StaleKeys(env, n + 1, limit, v2) <= StaleKeys(env, n, limit, v1)
             && !StaleOpaque(env, n + 1, v2)
             && (v2.tokens != map[] || v2.opaqueToken.Some?)
    ensures Rank(env, n + 1, limit, v2) < Rank(env, n, limit, v)
  {
    FellBack(env, n, limit, v, first);
  }

  lemma GainedOpaque(env: Env, n: nat, limit: nat, v: OriginView, first: Option<TokenKey>, token: string)
    requires IsFirst(v, first) && env.clock(n) <= limit
    requires Attempted(v, first, env.clock(n)).1.AgentSigned? && Granted(env, token, n + 1)
    ensures Rank(env, n + 1, limit, Attempted(v, first, env.clock(n)).0.(opaqueToken := Some(token))) < Rank(env, n, limit, v)
  {
    var v1 := Attempted(v, first, env.clock(n)).0;
    var v2 := v1.(opaqueToken := Some(token));
    FellBack(env, n, limit, v, first);
    GoodStays(env, n, limit, v1);
    assert StaleKeys(env, n + 1, limit, v2) == StaleKeys(env, n + 1, limit, v1);
    SubsetSize(StaleKeys(env, n + 1, limit, v1), StaleKeys(env, n, limit, v1));
    Gained(env, n, limit, v, first, v2);
  }

  lemma GainedAuth(env: Env, origin: string, n: nat, limit: nat, v: OriginView, first: Option<TokenKey>)
    requires IsFirst(v, first) && env.clock(n) <= limit && Lasting(env, limit)
    requires Attempted(v, first, env.clock(n)).1.AgentSigned? && ExchangedAt(env, n).Some?
    ensures Rank(env, n + 1, limit, Recorded(Attempted(v, first, env.clock(n)).0, origin, ExchangedAt(env, n).value))
            < Rank(env, n, limit, v)
  {
    var v1 := Attempted(v, first, env.clock(n)).0;
    FellBack(env, n, limit, v, first);
    var x := ExchangedAt(env, n).value;
    RecordWeight(env, origin, n, limit, v1, x);
    assert TokenKey(origin, x.personServer) in Recorded(v1, origin, x).tokens;
    Gained(env, n, limit, v, first, Recorded(v1, origin, x));
  }

  predicate Ready(env: Env, n: nat, limit: nat, v: OriginView, s: Scans) {
    ValidScans(env, n, v, s) && env.clock(n) <= limit
  }

  lemma AuthRound(env: Env, origin: string, cached: set<string>, n: nat, limit: nat, v: OriginView, s: Scans)
    requires AcceptsIssued(env) && DefersNone(env, cached) && Ready(env, n, limit, v, s) && Known(env, cached, n, v)
    requires Attempted(v, s.attempt, env.clock(n)).1.AuthTokenAttempt?
    requires RoundOf(env, origin, n, v, s).1.Again?
    ensures Rank(env, n + 1, limit, RoundOf(env, origin, n, v, s).0) < Rank(env, n, limit, v)
  {
    var attempt := Attempted(v, s.attempt, env.clock(n)).1;
    assert attempt.authToken in Texts(v);
    assert env.respond(n, attempt).value.status == 401;
    assert !Accepts(env.respond(n, attempt));
    GoodIsOffered(env, n, limit, v, s.attempt.value);
    RefusedAuth(env, n, limit, v, s.attempt.value, s.reply.value);
  }

  /** How the reply to a request with an opaque token is read. */
  lemma OpaqueStep(v: OriginView, t: string, resp: Response, first: Option<TokenKey>)
    requires IsFirst(v, first)
    ensures var (v', step) := Observed(v, OpaqueAttempt(t), resp, first);
            if resp.status == 401 then (v', step) == (v.(opaqueToken := None), Ok(Invalidate(OpaqueAttempt(t))))
            else
              && step == Ok(if resp.status == 202 then PollDeferred else Finish)
              && v' == if AccessOf(resp).Some? then v.(opaqueToken := AccessOf(resp)) else v
  {
  }

  /** A deferred request with an opaque token that is tried again has been granted another one. */
  lemma OpaquePolled(env: Env, n: nat, v: OriginView, t: string, resp: Response, first: Option<TokenKey>)
    requires DeferralsEnd(env) && IsFirst(v, first) && Polled(env, n, v, OpaqueAttempt(t), resp, first).1.Again?
    requires env.respond(n, OpaqueAttempt(t)) == Some(resp) && resp.status == 202
    ensures exists token :: Granted(env, token, n + 1)
                         && Polled(env, n, v, OpaqueAttempt(t), resp, first).0 == v.(opaqueToken := Some(token))
  {
    var result := env.poll(n, resp).value;
    OpaqueStep(v, t, result, first);
    assert PolledAt(env, n, OpaqueAttempt(t)) == Some(result) && !HandedBack(OpaqueAttempt(t), result);
    assert GrantsAt(env, n, OpaqueAttempt(t), AccessOf(result).value);
    assert Granted(env, AccessOf(result).value, n + 1);
  }

  /** A stale opaque token is replaced by a granted one. */
  lemma ReplacedOpaque(env: Env, n: nat, limit: nat, v: OriginView, first: Option<TokenKey>, token: string)
    requires IsFirst(v, first) && env.clock(n) <= limit
    requires !Attempted(v, first, env.clock(n)).1.AuthTokenAttempt? && StaleOpaque(env, n, v) && Granted(env, token, n + 1)
    ensures Rank(env, n + 1, limit, Attempted(v, first, env.clock(n)).0.(opaqueToken := Some(token))) < Rank(env, n, limit, v)
  {
    FellBack(env, n, limit, v, first);
    var v1 := Attempted(v, first, env.clock(n)).0;
    var v2 := v1.(opaqueToken := Some(token));
    GoodStays(env, n, limit, v1);
    assert StaleKeys(env, n + 1, limit, v2) == StaleKeys(env, n + 1, limit, v1);
    SubsetSize(StaleKeys(env, n + 1, limit, v1), StaleKeys(env, n, limit, v1));
    RankAgainstWeight(env, n, limit, v);
    RankAgainstWeight(env, n + 1, limit, v2);
  }

  lemma OpaqueRound(env: Env, origin: string, n: nat, limit: nat, v: OriginView, s: Scans)
    requires AcceptsIssued(env) && DeferralsEnd(env) && Ready(env, n, limit, v, s)
    requires Attempted(v, s.attempt, env.clock(n)).1.OpaqueAttempt?
    requires RoundOf(env, origin, n, v, s).1.Again?
    ensures Rank(env, n + 1, limit, RoundOf(env, origin, n, v, s).0) < Rank(env, n, limit, v)
  {
    FellBack(env, n, limit, v, s.attempt);
    var (v1, attempt) := Attempted(v, s.attempt, env.clock(n));
    var resp := env.respond(n, attempt).value;
    OpaqueStep(v1, attempt.opaqueToken, resp, s.reply);
    assert !Accepts(env.respond(n, attempt));
    if resp.status == 401 {
      RefusedOpaque(env, n, limit, v, s.attempt);
    } else {
      var v2 := Observed(v1, attempt, resp, s.reply).0;
      OpaquePolled(env, n, v2, attempt.opaqueToken, resp, s.polled);
      var token :| Granted(env, token, n + 1) && Polled(env, n, v2, attempt, resp, s.polled).0 == v2.(opaqueToken := Some(token));
      assert v2.(opaqueToken := Some(token)) == v1.(opaqueToken := Some(token));
      ReplacedOpaque(env, n, limit, v, s.attempt, token);
    }
  }

  /** How the reply to an agent-signed request is read. */
  lemma SignedStep(v: OriginView, resp: Response, first: Option<TokenKey>)
    requires IsFirst(v, first)
    ensures var (v', step) := Observed(v, AgentSigned, resp, first);
            && (step == Ok(PollDeferred) <==> resp.status == 202)
            && (step == Ok(RetryWithOpaque) ==> resp.status != 401 && AccessOf(resp).Some?)
            && (step.Ok? && step.value.ExchangeToken? ==> v' == v)
            && !(step.Ok? && step.value.Invalidate?)
            && (resp.status != 401 ==> v' == if AccessOf(resp).Some? then v.(opaqueToken := AccessOf(resp)) else v)
            && (resp.status == 401 ==> v' == v)
            && (HandedBack(AgentSigned, resp) ==> step !in {Ok(Finish), Ok(RetryWithOpaque)})
  {
  }

  /** Only a challenge to an agent-signed request leads to an exchange. */
  lemma ExchangeWasChallenged(env: Env, n: nat, v: OriginView, attempt: Attempt, resp: Response, first: Option<TokenKey>)
    requires IsFirst(v, first) && env.respond(n, attempt) == Some(resp)
    requires var step := Observed(v, attempt, resp, first).1; step.Ok? && step.value.ExchangeToken?
    ensures attempt.AgentSigned? && ChallengeAt(env, n) == Some(Observed(v, attempt, resp, first).1.value.resourceToken)
    ensures Observed(v, attempt, resp, first).0 == v
  {
  }

  lemma SignedPolled(env: Env, n: nat, v: OriginView, resp: Response, first: Option<TokenKey>)
    requires DeferralsEnd(env) && IsFirst(v, first) && Polled(env, n, v, AgentSigned, resp, first).1.Again?
    requires env.respond(n, AgentSigned) == Some(resp) && resp.status == 202
    ensures exists token :: Granted(env, token, n + 1)
                         && Polled(env, n, v, AgentSigned, resp, first).0 == v.(opaqueToken := Some(token))
  {
    var result := env.poll(n, resp).value;
    SignedStep(v, result, first);
    assert PolledAt(env, n, AgentSigned) == Some(result) && !HandedBack(AgentSigned, result);
    assert GrantsAt(env, n, AgentSigned, AccessOf(result).value);
    assert Granted(env, AccessOf(result).value, n + 1);
  }

  /** What an agent-signed round that goes on has gained. */
  lemma SignedAgain(env: Env, origin: string, n: nat, v: OriginView, s: Scans)
    requires DeferralsEnd(env) && ValidScans(env, n, v, s)
    requires Attempted(v, s.attempt, env.clock(n)).1.AgentSigned?
    requires RoundOf(env, origin, n, v, s).1.Again?
    ensures var (v1, v') := (Attempted(v, s.attempt, env.clock(n)).0, RoundOf(env, origin, n, v, s).0);
            || (exists token :: Granted(env, token, n + 1) && v' == v1.(opaqueToken := Some(token)))
            || (ExchangedAt(env, n).Some? && v' == Recorded(v1, origin, ExchangedAt(env, n).value))
  {
    var v1 := Attempted(v, s.attempt, env.clock(n)).0;
    var resp := env.respond(n, AgentSigned).value;
    SignedStep(v1, resp, s.reply);
    var (v2, step) := Observed(v1, AgentSigned, resp, s.reply);
    if step.value.PollDeferred? {
      SignedPolled(env, n, v2, resp, s.polled);
      var token :| Granted(env, token, n + 1) && Polled(env, n, v2, AgentSigned, resp, s.polled).0 == v2.(opaqueToken := Some(token));
      assert v2.(opaqueToken := Some(token)) == v1.(opaqueToken := Some(token));
    } else if step.value.RetryWithOpaque? {
      assert GrantsAt(env, n, AgentSigned, AccessOf(resp).value);
      assert Granted(env, AccessOf(resp).value, n + 1);
    } else {
      ExchangeWasChallenged(env, n, v1, AgentSigned, resp, s.reply);
    }
  }

  lemma SignedRound(env: Env, origin: string, n: nat, limit: nat, v: OriginView, s: Scans)
    requires DeferralsEnd(env) && Lasting(env, limit) && Ready(env, n, limit, v, s)
    requires Attempted(v, s.attempt, env.clock(n)).1.AgentSigned?
    requires RoundOf(env, origin, n, v, s).1.Again?
    ensures Rank(env, n + 1, limit, RoundOf(env, origin, n, v, s).0) < Rank(env, n, limit, v)
  {
    var v1, v' := Attempted(v, s.attempt, env.clock(n)).0, RoundOf(env, origin, n, v, s).0;
    SignedAgain(env, origin, n, v, s);
    if token :| Granted(env, token, n + 1) && v' == v1.(opaqueToken := Some(token)) {
      GainedOpaque(env, n, limit, v, s.attempt, token);
    } else {
      GainedAuth(env, origin, n, limit, v, s.attempt);
    }
  }

  /** The heart of convergence: a round either ends the call or lowers the rank. */
  lemma RoundDescends(env: Env, origin: string, cached: set<string>, n: nat, limit: nat, v: OriginView, s: Scans)
    requires Honest(env, cached) && Lasting(env, limit) && Ready(env, n, limit, v, s) && Known(env, cached, n, v)
    ensures RoundOf(env, origin, n, v, s).1.Again? ==>
              Rank(env, n + 1, limit, RoundOf(env, origin, n, v, s).0) < Rank(env, n, limit, v)
  {
    if RoundOf(env, origin, n, v, s).1.Again? {
      match Attempted(v, s.attempt, env.clock(n)).1
      case AuthTokenAttempt(_) => AuthRound(env, origin, cached, n, limit, v, s);
      case OpaqueAttempt(_) => OpaqueRound(env, origin, n, limit, v, s);
      case AgentSigned => SignedRound(env, origin, n, limit, v, s);
    }
  }

  lemma ObservedKeeps(v: OriginView, attempt: Attempt, resp: Response, first: Option<TokenKey>)
    requires IsFirst(v, first)
    ensures Texts(Observed(v, attempt, resp, first).0) <= Texts(v)
  {
    var v' := Observed(v, attempt, resp, first).0;
    assert forall key :: key in v'.tokens ==> key in v.tokens && v'.tokens[key] == v.tokens[key];
  }

  lemma RecordedKeeps(v: OriginView, origin: string, x: Exchange)
    ensures Texts(Recorded(v, origin, x)) <= Texts(v) + {x.token}
  {
  }

  lemma PolledKeeps(env: Env, n: nat, v: OriginView, attempt: Attempt, resp: Response, first: Option<TokenKey>)
    requires IsFirst(v, first)
    ensures Texts(Polled(env, n, v, attempt, resp, first).0) <= Texts(v)
  {
    if env.poll(n, resp).Some? {
      ObservedKeeps(v, attempt, env.poll(n, resp).value, first);
    }
  }

  lemma ExchangeKeeps(env: Env, origin: string, n: nat, v: OriginView, attempt: Attempt, resp: Response, first: Option<TokenKey>)
    requires IsFirst(v, first) && env.respond(n, attempt) == Some(resp)
    requires var step := Observed(v, attempt, resp, first).1;
             step.Ok? && step.value.ExchangeToken? && env.exchange(n, step.value.resourceToken).Some?
    ensures var x := env.exchange(n, Observed(v, attempt, resp, first).1.value.resourceToken).value;
            Issued(env, x.token, n + 1) && Texts(Recorded(v, origin, x)) <= Texts(v) + {x.token}
  {
    ExchangeWasChallenged(env, n, v, attempt, resp, first);
    var x := ExchangedAt(env, n).value;
    assert Issued(env, x.token, n + 1);
    RecordedKeeps(v, origin, x);
  }

  /** A round caches no auth token but one that it obtains. */
  lemma RoundKeepsTexts(env: Env, origin: string, n: nat, v: OriginView, s: Scans, t: string)
    requires ValidScans(env, n, v, s) && t in Texts(RoundOf(env, origin, n, v, s).0)
    ensures t in Texts(v) || Issued(env, t, n + 1)
  {
    var (v1, attempt) := Attempted(v, s.attempt, env.clock(n));
    assert Texts(v1) <= Texts(v);
    if env.respond(n, attempt).Some? {
      var resp := env.respond(n, attempt).value;
      ObservedKeeps(v1, attempt, resp, s.reply);
      var (v2, step) := Observed(v1, attempt, resp, s.reply);
      if step.Ok? && step.value.ExchangeToken? && env.exchange(n, step.value.resourceToken).Some? {
        ExchangeWasChallenged(env, n, v1, attempt, resp, s.reply);
        ExchangeKeeps(env, origin, n, v1, attempt, resp, s.reply);
      } else if step.Ok? && step.value.PollDeferred? {
        PolledKeeps(env, n, v2, attempt, resp, s.polled);
      }
    }
  }

  lemma RoundKeepsKnown(env: Env, origin: string, cached: set<string>, n: nat, v: OriginView, s: Scans)
    requires ValidScans(env, n, v, s) && Known(env, cached, n, v)
    ensures Known(env, cached, n + 1, RoundOf(env, origin, n, v, s).0)
  {
    forall t | t in Texts(RoundOf(env, origin, n, v, s).0) ensures t in Texts(v) || Issued(env, t, n + 1) {
      RoundKeepsTexts(env, origin, n, v, s, t);
    }
    forall t | Issued(env, t, n) ensures Issued(env, t, n + 1) {
      var k: nat :| k < n && ExchangedAt(env, k).Some? && ExchangedAt(env, k).value.token == t;
    }
  }

  lemma InitialRank(env: Env, n: nat, limit: nat, v: OriginView)
    ensures Rank(env, n, limit, v) <= 2 * |v.tokens| + 4
  {
    MapSize(v.tokens);
    SubsetSize(StaleKeys(env, n, limit, v), v.tokens.Keys);
  }

  // ----- the middleware -----

  /** Proactive authorization, tried before the first round. False stands for an error. */
  function ProactiveOf(env: Env, v: OriginView): (r: (OriginView, bool)) {
    if v.opaqueToken.Some? then (v, true)
    else
      var v0 := v.(tried := true);
      if v.tried || !env.endpoint then (v0, true)
      else if env.authorizeReply.None? then (v0, false)
      else
        var (v1, step) := ObservedSigned(v0, env.authorizeReply.value);
        if step.Err? then (v1, false)
        else if !step.value.PollDeferred? then (v1, true)
        else if env.authorizeReply.value.location.None? || env.authorizePoll.None? then (v1, false)
        else
          var (v2, step2) := ObservedSigned(v1, env.authorizePoll.value);
          (v2, step2.Ok?)
  }

  /** An agent-signed reply is read the same way whatever tokens are cached. */
  function ObservedSigned(v: OriginView, resp: Response): (r: (OriginView, Result<Step, Headers.HeaderError>)) {
    var (v', step) := Observed(v.(tokens := map[]), AgentSigned, resp, None);
    (v'.(tokens := v.tokens), step)
  }

  lemma ObservedSignedIs(v: OriginView, resp: Response, first: Option<TokenKey>)
    requires IsFirst(v, first)
    ensures Observed(v, AgentSigned, resp, first) == ObservedSigned(v, resp)
  {
  }

  // ----- what authorization is for -----

  /** Proactive authorization is attempted: there is an endpoint for it, nothing opaque is at hand, and it was not tried before. */
  predicate Authorizes(env: Env, seed: Option<string>, v: OriginView) {
    env.endpoint && seed.None? && v.opaqueToken.None? && !v.tried
  }

  /** The token a reply grants; a refusal grants none. */
  function TokenIn(resp: Response): (r: Option<string>) {
    if resp.status == 401 then None else AccessOf(resp)
  }

  /** A refusal with a challenge that cannot be read. */
  predicate Unreadable(resp: Response) {
    resp.status == 401 && resp.requirement.Some? && Headers.FromHeader(resp.requirement.value).Err?
  }

  /** The endpoint gives no reply, or an unreadable one, or defers to nowhere or to a poll that fails. */
  predicate AuthorizeFails(env: Env) {
    match env.authorizeReply
    case None => true
    case Some(first) =>
      Unreadable(first)
      || (first.status == 202 && (first.location.None? || env.authorizePoll.None? || Unreadable(env.authorizePoll.value)))
  }

  /** The token that comes of asking: that of the last reply that has one. */
  function AuthorizeGrants(env: Env): (r: Option<string>) {
    match env.authorizeReply
    case None => None
    case Some(first) =>
      if first.status == 202 && first.location.Some? && env.authorizePoll.Some? && TokenIn(env.authorizePoll.value).Some?
      then TokenIn(env.authorizePoll.value)
      else TokenIn(first)
  }

  /** From view `v` authorization leads to `v'`, and to an error unless `ok`. */
  predicate AuthorizedTo(env: Env, seed: Option<string>, v: OriginView, v': OriginView, ok: bool) {
    && v'.tokens == v.tokens
    && v'.tried == (v.tried || (seed.None? && v.opaqueToken.None?))
    && if Authorizes(env, seed, v) then ok == !AuthorizeFails(env) && v'.opaqueToken == AuthorizeGrants(env)
       else ok && v'.opaqueToken == if v.opaqueToken.Some? then v.opaqueToken else seed
  }

  lemma ObservedSignedGives(v: OriginView, resp: Response)
    ensures var (v', step) := ObservedSigned(v, resp);
            && v' == v.(opaqueToken := if TokenIn(resp).Some? then TokenIn(resp) else v.opaqueToken)
            && (step.Err? <==> Unreadable(resp))
            && (step == Ok(PollDeferred) <==> resp.status == 202)
  {
  }

  lemma ProactiveAuthorizes(env: Env, seed: Option<string>, v: OriginView)
    ensures var (v', ok) := ProactiveOf(env, After(seed, v, SeedOpaque)); AuthorizedTo(env, seed, v, v', ok)
  {
    var v0 := v.(tried := true);
    if env.authorizeReply.Some? {
      ObservedSignedGives(v0, env.authorizeReply.value);
      if env.authorizePoll.Some? {
        ObservedSignedGives(ObservedSigned(v0, env.authorizeReply.value).0, env.authorizePoll.value);
      }
    }
  }

  method TryProactiveAuthorize(auth: AgentAuth, origin: string, env: Env) returns (ok: bool)
    requires auth.Valid()
    modifies auth
    ensures auth.Valid()
    ensures (ViewOf(auth.State(), origin), ok) == ProactiveOf(env, ViewOf(old(auth.State()), origin))
    ensures AuthorizedTo(env, None, ViewOf(old(auth.State()), origin), ViewOf(auth.State(), origin), ok)
    ensures forall other :: other != origin ==> ViewOf(auth.State(), other) == ViewOf(old(auth.State()), other)
  {
    ProactiveAuthorizes(env, None, ViewOf(auth.State(), origin));
    var granted := auth.BeginAuthorizeAttempt(origin);
    if !granted || !env.endpoint {
      return true;
    }
    if env.authorizeReply.None? {
      return false;
    }
    var step := ObserveSigned(auth, origin, env.authorizeReply.value);
    if step.Err? {
      return false;
    }
    if step.value.PollDeferred? {
      if env.authorizeReply.value.location.None? || env.authorizePoll.None? {
        return false;
      }
      var step2 := ObserveSigned(auth, origin, env.authorizePoll.value);
      return step2.Ok?;
    }
    ok := true;
  }

  method ObserveSigned(auth: AgentAuth, origin: string, resp: Response) returns (step: Result<Step, Headers.HeaderError>)
    requires auth.Valid()
    modifies auth
    ensures auth.Valid()
    ensures (ViewOf(auth.State(), origin), step) == ObservedSigned(ViewOf(old(auth.State()), origin), resp)
    ensures forall other :: other != origin ==> ViewOf(auth.State(), other) == ViewOf(old(auth.State()), other)
  {
    ghost var v := ViewOf(auth.State(), origin);
    step := auth.ObserveResponse(origin, AgentSigned, resp);
    ghost var first :| Did(auth.seed, old(auth.State()), auth.State(), origin, Observe(AgentSigned, resp, first))
                    && step == Observed(v, AgentSigned, resp, first).1;
    ObservedSignedIs(v, resp, first);
  }

  ghost function AnyFirst(v: OriginView): (r: Option<TokenKey>)
    ensures IsFirst(v, r)
  {
    if v.tokens == map[] then None else (var k :| k in v.tokens; Some(k))
  }

  method PollDeferral(auth: AgentAuth, origin: string, env: Env, n: nat, attempt: Attempt, resp: Response) returns (outcome: Outcome)
    requires auth.Valid()
    modifies auth
    ensures auth.Valid()
    ensures var v := ViewOf(old(auth.State()), origin);
            exists first :: IsFirst(v, first) && (ViewOf(auth.State(), origin), outcome) == Polled(env, n, v, attempt, resp, first)
    ensures forall other :: other != origin ==> ViewOf(auth.State(), other) == ViewOf(old(auth.State()), other)
  {
    ghost var v := ViewOf(auth.State(), origin);
    assert IsFirst(v, AnyFirst(v));
    if resp.location.None? {
      return Returned(None);
    }
    var result := env.poll(n, resp);
    if result.None? {
      return Returned(None);
    }
    var step := auth.ObserveResponse(origin, attempt, result.value);
    ghost var first :| Did(auth.seed, old(auth.State()), auth.State(), origin, Observe(attempt, result.value, first))
                    && step == Observed(v, attempt, result.value, first).1;
    assert IsFirst(v, first);
    if step.Err? {
      return Returned(None);
    }
    if step.value.Finish? || step.value.RetryWithOpaque? {
      return Again;
    }
    return Returned(result);
  }

  /** Some scan order accounts for what happened to the view. */
  ghost predicate Explained(env: Env, origin: string, n: nat, v: OriginView, v': OriginView, outcome: Outcome) {
    exists s :: ValidScans(env, n, v, s) && (v', outcome) == RoundOf(env, origin, n, v, s)
  }

  lemma Explain(env: Env, origin: string, n: nat, v: OriginView, s: Scans)
    requires ValidScans(env, n, v, s)
    ensures Explained(env, origin, n, v, RoundOf(env, origin, n, v, s).0, RoundOf(env, origin, n, v, s).1)
  {
  }

  /** One turn of the loop, on the shared caches. */
  method Round(auth: AgentAuth, origin: string, env: Env, n: nat) returns (outcome: Outcome)
    requires auth.Valid()
    modifies auth
    ensures auth.Valid()
    ensures Explained(env, origin, n, ViewOf(old(auth.State()), origin), ViewOf(auth.State(), origin), outcome)
    ensures forall other :: other != origin ==> ViewOf(auth.State(), other) == ViewOf(old(auth.State()), other)
  {
    ghost var v := ViewOf(auth.State(), origin);
    var attempt := auth.Next(origin, env.clock(n));
    ghost var first :| Did(auth.seed, old(auth.State()), auth.State(), origin, NextAttempt(first, env.clock(n)))
                    && attempt == Attempted(v, first, env.clock(n)).1;
    ghost var c1 := auth.State();
    ghost var v1 := ViewOf(c1, origin);
    var resp := env.respond(n, attempt);
    if resp.None? {
      Explain(env, origin, n, v, Scans(first, AnyFirst(v1), None));
      return Returned(None);
    }
    var step := auth.ObserveResponse(origin, attempt, resp.value);
    ghost var second :| Did(auth.seed, c1, auth.State(), origin, Observe(attempt, resp.value, second))
                     && step == Observed(v1, attempt, resp.value, second).1;
    ghost var v2 := ViewOf(auth.State(), origin);
    if step.Ok? && step.value.PollDeferred? {
      outcome := PollDeferral(auth, origin, env, n, attempt, resp.value);
      ghost var third :| IsFirst(v2, third) && (ViewOf(auth.State(), origin), outcome) == Polled(env, n, v2, attempt, resp.value, third);
      Explain(env, origin, n, v, Scans(first, second, third));
    } else {
      outcome := FollowStep(auth, origin, env, n, resp.value, step);
      Explain(env, origin, n, v, Scans(first, second, AnyFirst(v2)));
    }
  }

  method FollowStep(auth: AgentAuth, origin: string, env: Env, n: nat, resp: Response, step: Result<Step, Headers.HeaderError>)
    returns (outcome: Outcome)
    requires auth.Valid() && step != Ok(PollDeferred)
    modifies auth
    ensures auth.Valid()
    ensures var v := ViewOf(old(auth.State()), origin);
            (ViewOf(auth.State(), origin), outcome)
            == match step
               case Err(_) => (v, Returned(None))
               case Ok(Finish) => (v, Returned(Some(resp)))
               case Ok(RetryWithOpaque) => (v, Again)
               case Ok(Invalidate(_)) => (v, Again)
               case Ok(ExchangeToken(resourceToken)) =>
                 match env.exchange(n, resourceToken)
                 case None => (v, Returned(None))
                 case Some(x) => (Recorded(v, origin, x), Again)
    ensures forall other :: other != origin ==> ViewOf(auth.State(), other) == ViewOf(old(auth.State()), other)
  {
    if step.Err? {
      return Returned(None);
    }
    match step.value
    case Finish => return Returned(Some(resp));
    case RetryWithOpaque => return Again;
    case Invalidate(_) => return Again;
    case ExchangeToken(resourceToken) =>
      var x := env.exchange(n, resourceToken);
      if x.None? {
        return Returned(None);
      }
      auth.RecordAuthToken(origin, x.value.personServer, x.value.token, x.value.expiresIn, x.value.recordedAt);
      return Again;
  }

  // ----- what a round comes to -----

  /** The round has gained or lost a credential, or waited for an answer that settles nothing. */
  predicate TriesAgain(env: Env, n: nat, a: Attempt) {
    match env.respond(n, a)
    case None => false
    case Some(resp) =>
      if resp.status == 401 then !a.AgentSigned? || ExchangedAt(env, n).Some?
      else if resp.status == 202 then PolledAt(env, n, a).Some? && !HandedBack(a, PolledAt(env, n, a).value)
      else a.AgentSigned? && AccessOf(resp).Some?
  }

  /** The answer to the request, or to polling, is the caller's. */
  predicate Returns(env: Env, n: nat, a: Attempt, reply: Response) {
    match env.respond(n, a)
    case None => false
    case Some(resp) =>
      if resp.status == 401 then
        a.AgentSigned? && resp == reply
        && (resp.requirement.None? || (ChallengeIn(resp).Some? && !ChallengeIn(resp).value.AuthTokenNeeded?))
      else if resp.status == 202 then
        PolledAt(env, n, a) == Some(reply) && HandedBack(a, reply) && !(a.AgentSigned? && Unreadable(reply))
      else resp == reply && !(a.AgentSigned? && AccessOf(resp).Some?)
  }

  /** A round goes on, hands back a reply, or else ends in an error, going by the answers to the attempt it makes. */
  lemma RoundExactly(env: Env, origin: string, n: nat, v: OriginView, s: Scans, reply: Response)
    requires ValidScans(env, n, v, s)
    ensures var (attempt, outcome) := (Attempted(v, s.attempt, env.clock(n)).1, RoundOf(env, origin, n, v, s).1);
            && (outcome == Again <==> TriesAgain(env, n, attempt))
            && (outcome == Returned(Some(reply)) <==> Returns(env, n, attempt, reply))
  {
    var (v1, attempt) := Attempted(v, s.attempt, env.clock(n));
    if env.respond(n, attempt).Some? {
      var resp := env.respond(n, attempt).value;
      StepOf(v1, attempt, resp, s.reply);
      var v2 := Observed(v1, attempt, resp, s.reply).0;
      if resp.status == 202 {
        PolledExactly(env, n, v2, attempt, resp, s.polled, reply);
      }
    }
  }

  /** With no opaque token behind an agent-signed attempt, every grant is new. */
  lemma StepOf(v: OriginView, attempt: Attempt, resp: Response, first: Option<TokenKey>)
    requires IsFirst(v, first) && (attempt.AgentSigned? ==> v.opaqueToken.None?)
    ensures var step := Observed(v, attempt, resp, first).1;
            && (step == Ok(PollDeferred) <==> resp.status == 202)
            && (step == Ok(RetryWithOpaque) <==> attempt.AgentSigned? && resp.status !in {401, 202} && AccessOf(resp).Some?)
            && (step.Err? <==> attempt.AgentSigned? && Unreadable(resp))
            && (step.Ok? && step.value.ExchangeToken? <==>
                  attempt.AgentSigned? && ChallengeIn(resp).Some? && ChallengeIn(resp).value.AuthTokenNeeded?)
            && (step.Ok? && step.value.ExchangeToken? ==> ChallengeIn(resp).value.resourceToken == step.value.resourceToken)
            && (step.Ok? && step.value.Invalidate? <==> resp.status == 401 && !attempt.AgentSigned?)
  {
    StepExactly(v, attempt, resp, first, "");
  }

  lemma PolledExactly(env: Env, n: nat, v: OriginView, attempt: Attempt, resp: Response, first: Option<TokenKey>, reply: Response)
    requires IsFirst(v, first) && env.respond(n, attempt) == Some(resp) && resp.status == 202
    ensures var (outcome, result) := (Polled(env, n, v, attempt, resp, first).1, PolledAt(env, n, attempt));
            && (outcome == Again <==> result.Some? && !HandedBack(attempt, result.value))
            && (outcome == Returned(Some(reply)) <==> result == Some(reply) && HandedBack(attempt, reply) && !(attempt.AgentSigned? && Unreadable(reply)))
  {
    if PolledAt(env, n, attempt).Some? {
      StepExactly(v, attempt, PolledAt(env, n, attempt).value, first, "");
    }
  }

  /** The reply the resource gave in round `n`; a 401 only to an agent-signed request or at the end of a deferral. */
  ghost predicate ReplyOfRound(env: Env, n: nat, reply: Response) {
    || (exists a: Attempt :: env.respond(n, a) == Some(reply) && (reply.status == 401 ==> a.AgentSigned?))
    || (exists resp: Response :: env.poll(n, resp) == Some(reply))
  }

  lemma RoundReply(env: Env, origin: string, n: nat, v: OriginView, s: Scans)
    requires ValidScans(env, n, v, s)
    ensures var outcome := RoundOf(env, origin, n, v, s).1;
            outcome.Returned? && outcome.reply.Some? ==> ReplyOfRound(env, n, outcome.reply.value)
  {
    var attempt := Attempted(v, s.attempt, env.clock(n)).1;
    if env.respond(n, attempt).Some? && env.respond(n, attempt).value.status == 401 {
      assert RoundOf(env, origin, n, v, s).1 == Returned(env.respond(n, attempt)) ==> attempt.AgentSigned?;
    }
  }

  lemma ExplainedRound(env: Env, origin: string, cached: set<string>, n: nat, limit: nat, v: OriginView, v': OriginView, outcome: Outcome)
    requires Honest(env, cached) && Lasting(env, limit) && env.clock(n) <= limit && Known(env, cached, n, v)
    requires Explained(env, origin, n, v, v', outcome)
    ensures outcome.Again? ==> Rank(env, n + 1, limit, v') < Rank(env, n, limit, v)
    ensures outcome.Returned? && outcome.reply.Some? ==> ReplyOfRound(env, n, outcome.reply.value)
    ensures Known(env, cached, n + 1, v')
  {
    var s :| ValidScans(env, n, v, s) && (v', outcome) == RoundOf(env, origin, n, v, s);
    RoundDescends(env, origin, cached, n, limit, v, s);
    RoundReply(env, origin, n, v, s);
    RoundKeepsKnown(env, origin, cached, n, v, s);
  }

  /** Round `n` ends the call with this reply, from a view whose auth tokens are all known. */
  ghost predicate EndedAt(env: Env, origin: string, cached: set<string>, n: nat, reply: Option<Response>) {
    exists v, s :: Known(env, cached, n, v) && ValidScans(env, n, v, s) && RoundOf(env, origin, n, v, s).1 == Returned(reply)
  }

  /** The last of `rounds` rounds does. */
  ghost predicate EndedBy(env: Env, origin: string, cached: set<string>, rounds: nat, reply: Option<Response>) {
    rounds > 0 && EndedAt(env, origin, cached, rounds - 1, reply)
  }

  lemma EndedByRound(env: Env, origin: string, cached: set<string>, n: nat, v: OriginView, v': OriginView, reply: Option<Response>)
    requires Known(env, cached, n, v) && Explained(env, origin, n, v, v', Returned(reply))
    ensures EndedBy(env, origin, cached, n + 1, reply)
  {
    var s :| ValidScans(env, n, v, s) && (v', Returned(reply)) == RoundOf(env, origin, n, v, s);
    assert EndedAt(env, origin, cached, n, reply);
  }

  /** What comes before the first round keeps the cached auth tokens. */
  method Prepare(auth: AgentAuth, origin: string, env: Env) returns (ok: bool)
    requires auth.Valid()
    modifies auth
    ensures auth.Valid()
    ensures (ViewOf(auth.State(), origin), ok) == ProactiveOf(env, After(auth.seed, ViewOf(old(auth.State()), origin), SeedOpaque))
    ensures AuthorizedTo(env, auth.seed, ViewOf(old(auth.State()), origin), ViewOf(auth.State(), origin), ok)
    ensures forall other :: other != origin ==> ViewOf(auth.State(), other) == ViewOf(old(auth.State()), other)
  {
    ProactiveAuthorizes(env, auth.seed, ViewOf(auth.State(), origin));
    auth.SeedOpaqueFor(origin);
    ok := TryProactiveAuthorize(auth, origin, env);
  }

  // ----- a whole run of the loop -----

  /** `n` rounds, each of which goes on, lead from `start` to `v`. */
  ghost predicate Came(env: Env, origin: string, start: OriginView, n: nat, v: OriginView)
    decreases n, 0
  {
    if n == 0 then v == start else CameBy(env, origin, start, n - 1, v)
  }

  /** Round `n` is the last of them. */
  ghost predicate CameBy(env: Env, origin: string, start: OriginView, n: nat, v: OriginView)
    decreases n, 1
  {
    exists u :: Came(env, origin, start, n, u) && Leads(env, origin, n, u, v)
  }

  /** Round `n` is the one that returns. */
  ghost predicate EndsAt(env: Env, origin: string, start: OriginView, n: nat, end: OriginView, reply: Option<Response>) {
    exists v :: Came(env, origin, start, n, v) && Explained(env, origin, n, v, end, Returned(reply))
  }

  /** `rounds` rounds lead from `start` to `end`, and the last returns the reply. */
  ghost predicate Ran(env: Env, origin: string, start: OriginView, rounds: nat, end: OriginView, reply: Option<Response>) {
    rounds > 0 && EndsAt(env, origin, start, rounds - 1, end, reply)
  }

  lemma CameOn(env: Env, origin: string, start: OriginView, n: nat, v: OriginView, v': OriginView, outcome: Outcome)
    requires Came(env, origin, start, n, v) && Explained(env, origin, n, v, v', outcome)
    ensures outcome.Again? ==> Came(env, origin, start, n + 1, v')
    ensures outcome.Returned? ==> Ran(env, origin, start, n + 1, v', outcome.reply)
  {
    var s :| ValidScans(env, n, v, s) && (v', outcome) == RoundOf(env, origin, n, v, s);
    if outcome.Again? {
      assert Leads(env, origin, n, v, v');
      assert CameBy(env, origin, start, n, v');
    } else {
      assert EndsAt(env, origin, start, n, v', outcome.reply);
    }
  }

  lemma {:induction false} FirstStep(env: Env, origin: string, start: OriginView, n: nat, v: OriginView)
    requires Came(env, origin, start, n, v) && n > 0
    ensures exists u :: Leads(env, origin, 0, start, u)
  {
    assert CameBy(env, origin, start, n - 1, v);
    var u :| Came(env, origin, start, n - 1, u) && Leads(env, origin, n - 1, u, v);
    if n > 1 {
      FirstStep(env, origin, start, n - 1, u);
    }
  }

  /** With no auth token cached, the first request presents the opaque token at hand after authorization, and one that is served ends the call. */
  lemma GrantIsPresented(
    env: Env, origin: string, seed: Option<string>, v: OriginView, start: OriginView, token: string, rounds: nat, end: OriginView, reply: Option<Response>)
    requires v.tokens == map[] && AuthorizedTo(env, seed, v, start, true) && Ran(env, origin, start, rounds, end, reply)
    requires if Authorizes(env, seed, v) then AuthorizeGrants(env) == Some(token) else Some(token) in {v.opaqueToken, seed} && v.opaqueToken in {None, Some(token)}
    ensures forall first :: IsFirst(start, first) ==> Attempted(start, first, env.clock(0)) == (start, OpaqueAttempt(token))
    ensures Accepts(env.respond(0, OpaqueAttempt(token))) ==> rounds == 1 && reply == env.respond(0, OpaqueAttempt(token))
  {
    if Accepts(env.respond(0, OpaqueAttempt(token))) {
      forall u ensures !Leads(env, origin, 0, start, u) {
        if s :| ValidScans(env, 0, start, s) && RoundOf(env, origin, 0, start, s) == (u, Again) {
          ServedOpaque(env, origin, start, token, s);
        }
      }
      var u :| Came(env, origin, start, rounds - 1, u) && Explained(env, origin, rounds - 1, u, end, Returned(reply));
      if rounds > 1 {
        FirstStep(env, origin, start, rounds - 1, u);
      }
      var s :| ValidScans(env, 0, start, s) && (end, Returned(reply)) == RoundOf(env, origin, 0, start, s);
      ServedOpaque(env, origin, start, token, s);
    }
  }

  lemma ServedOpaque(env: Env, origin: string, v: OriginView, token: string, s: Scans)
    requires v.tokens == map[] && v.opaqueToken == Some(token) && ValidScans(env, 0, v, s)
    requires Accepts(env.respond(0, OpaqueAttempt(token)))
    ensures RoundOf(env, origin, 0, v, s).1 == Returned(env.respond(0, OpaqueAttempt(token)))
  {
    if env.respond(0, OpaqueAttempt(token)).Some? {
      OpaqueStep(v, token, env.respond(0, OpaqueAttempt(token)).value, s.reply);
    }
  }

  /** After `n` rounds from `start` the call goes on from `v`, with rounds left within the bound. */
  ghost predicate Underway(
    env: Env, origin: string, start: OriginView, cached: set<string>, limit: nat, bound: nat, n: nat, v: OriginView)
  {
    Came(env, origin, start, n, v) && Known(env, cached, n, v) && n + Rank(env, n, limit, v) <= bound
  }

  /** After `rounds` rounds from `start` the call is over, with the reply of the last. */
  ghost predicate Over(
    env: Env, origin: string, start: OriginView, cached: set<string>, rounds: nat, end: OriginView, reply: Option<Response>)
  {
    && Ran(env, origin, start, rounds, end, reply)
    && EndedBy(env, origin, cached, rounds, reply)
    && (reply.Some? ==> ReplyOfRound(env, rounds - 1, reply.value))
  }

  lemma RoundFollows(
    env: Env, origin: string, start: OriginView, cached: set<string>, limit: nat, bound: nat, n: nat, v: OriginView, v': OriginView, outcome: Outcome)
    requires Honest(env, cached) && Lasting(env, limit) && env.clock(n) <= limit
    requires Underway(env, origin, start, cached, limit, bound, n, v) && Explained(env, origin, n, v, v', outcome)
    ensures outcome.Again? ==> Underway(env, origin, start, cached, limit, bound, n + 1, v')
    ensures outcome.Returned? ==> Over(env, origin, start, cached, n + 1, v', outcome.reply)
  {
    CameOn(env, origin, start, n, v, v', outcome);
    ExplainedRound(env, origin, cached, n, limit, v, v', outcome);
    if outcome.Returned? {
      EndedByRound(env, origin, cached, n, v, v', outcome.reply);
    }
  }

  /**
   The whole call. Against an honest resource it ends after at most twice as many rounds as
   there are tokens cached for the origin, plus four, whatever they are and in whatever
   order they are tried; `limit` is any time by which those rounds are over. The rounds start
   from what authorization came to, and none takes place exactly when that failed.
   */
  method HandleInner(auth: AgentAuth, origin: string, env: Env, ghost limit: nat)
    returns (reply: Option<Response>, rounds: nat, ghost start: OriginView)
    requires auth.Valid()
    requires Honest(env, Texts(ViewOf(auth.State(), origin))) && Lasting(env, limit)
    requires forall n: nat :: n < 2 * |ViewOf(auth.State(), origin).tokens| + 4 ==> env.clock(n) <= limit
    modifies auth
    ensures auth.Valid()
    ensures rounds <= 2 * |ViewOf(old(auth.State()), origin).tokens| + 4
    ensures AuthorizedTo(env, auth.seed, ViewOf(old(auth.State()), origin), start, rounds > 0)
    ensures rounds == 0 ==> reply == None && ViewOf(auth.State(), origin) == start
    ensures rounds > 0 ==> Over(env, origin, start, Texts(ViewOf(old(auth.State()), origin)), rounds, ViewOf(auth.State(), origin), reply)
    ensures forall other :: other != origin ==> ViewOf(auth.State(), other) == ViewOf(old(auth.State()), other)
  {
    rounds := 0;
    ghost var bound := 2 * |ViewOf(auth.State(), origin).tokens| + 4;
    ghost var cached := Texts(ViewOf(auth.State(), origin));
    var ok := Prepare(auth, origin, env);
    start := ViewOf(auth.State(), origin);
    if !ok {
      return None, 0, start;
    }
    BeforeFirstRound(env, origin, cached, limit, start);
    reply, rounds := Rounds(auth, origin, env, cached, limit, bound);
  }

  lemma BeforeFirstRound(env: Env, origin: string, cached: set<string>, limit: nat, start: OriginView)
    requires Texts(start) == cached
    ensures Underway(env, origin, start, cached, limit, 2 * |start.tokens| + 4, 0, start)
  {
    InitialRank(env, 0, limit, start);
  }

  /** One turn of a call that is under way. */
  method NextRound(
    auth: AgentAuth, origin: string, env: Env, n: nat, ghost start: OriginView, ghost cached: set<string>, ghost limit: nat, ghost bound: nat)
    returns (outcome: Outcome)
    requires auth.Valid() && Honest(env, cached) && Lasting(env, limit) && env.clock(n) <= limit
    requires Underway(env, origin, start, cached, limit, bound, n, ViewOf(auth.State(), origin))
    modifies auth
    ensures auth.Valid()
    ensures outcome.Again? ==> Underway(env, origin, start, cached, limit, bound, n + 1, ViewOf(auth.State(), origin)) && n + 1 < bound
    ensures outcome.Returned? ==> Over(env, origin, start, cached, n + 1, ViewOf(auth.State(), origin), outcome.reply)
    ensures forall other :: other != origin ==> ViewOf(auth.State(), other) == ViewOf(old(auth.State()), other)
  {
    ghost var v := ViewOf(auth.State(), origin);
    outcome := Round(auth, origin, env, n);
    RoundFollows(env, origin, start, cached, limit, bound, n, v, ViewOf(auth.State(), origin), outcome);
  }

  /** The loop itself, from any caches. */
  method Rounds(auth: AgentAuth, origin: string, env: Env, ghost cached: set<string>, ghost limit: nat, ghost bound: nat)
    returns (reply: Option<Response>, rounds: nat)
    requires auth.Valid() && Honest(env, cached) && Lasting(env, limit)
    requires Underway(env, origin, ViewOf(auth.State(), origin), cached, limit, bound, 0, ViewOf(auth.State(), origin))
    requires forall n: nat :: n < bound ==> env.clock(n) <= limit
    modifies auth
    ensures auth.Valid()
    ensures 0 < rounds <= bound
    ensures Over(env, origin, ViewOf(old(auth.State()), origin), cached, rounds, ViewOf(auth.State(), origin), reply)
    ensures forall other :: other != origin ==> ViewOf(auth.State(), other) == ViewOf(old(auth.State()), other)
  {
    rounds := 0;
    ghost var start := ViewOf(auth.State(), origin);
    while true
      invariant auth.Valid() && rounds < bound
      invariant Underway(env, origin, start, cached, limit, bound, rounds, ViewOf(auth.State(), origin))
      invariant forall other :: other != origin ==> ViewOf(auth.State(), other) == ViewOf(old(auth.State()), other)
      decreases bound - rounds
    {
      var outcome := NextRound(auth, origin, env, rounds, start, cached, limit, bound);
      rounds := rounds + 1;
      if outcome.Returned? {
        return outcome.reply, rounds;
      }
    }
  }

  // ----- each condition on the resource is needed -----

  const REFUSED := Response(401, [], None, None)
  const DEFERRED := Response(202, [], None, Some("https://resource.example/pending/1"))

  /** How a round with nothing cached goes when the request is deferred and polling ends with an answer. */
  lemma DeferredRound(env: Env, origin: string, n: nat, resp: Response, tried: bool)
    requires env.respond(n, AgentSigned) == Some(resp) && resp.status == 202 && resp.location.Some? && resp.access == []
    requires env.poll(n, resp).Some? ==> env.poll(n, resp).value.status !in {401, 202}
    ensures var v := OriginView(map[], None, tried);
            && ValidScans(env, n, v, Scans(None, None, None))
            && RoundOf(env, origin, n, v, Scans(None, None, None))
               == match env.poll(n, resp)
                  case None => (v, Returned(None))
                  case Some(result) => (v.(opaqueToken := AccessOf(result)), Again)
  {
    assert AccessOf(resp) == None;
  }

  /** Round `n` can lead from one view to the other, for some order in which cached tokens are met, and goes on. */
  ghost predicate Leads(env: Env, origin: string, n: nat, v: OriginView, v': OriginView) {
    exists s :: ValidScans(env, n, v, s) && RoundOf(env, origin, n, v, s) == (v', Again)
  }

  ghost predicate Path(leads: (nat, OriginView, OriginView) -> bool, n: nat, v: OriginView, rounds: nat)
    decreases rounds
  {
    rounds == 0 || exists v' :: leads(n, v, v') && Path(leads, n + 1, v', rounds - 1)
  }

  ghost function LeadsOf(env: Env, origin: string): (r: (nat, OriginView, OriginView) -> bool) {
    (n: nat, v, v') => Leads(env, origin, n, v, v')
  }

  /** From this view, the call can still be going after `rounds` more rounds. */
  ghost predicate StillGoing(env: Env, origin: string, n: nat, v: OriginView, rounds: nat) {
    Path(LeadsOf(env, origin), n, v, rounds)
  }

  lemma {:induction false} PathStays(leads: (nat, OriginView, OriginView) -> bool, n: nat, v: OriginView, rounds: nat)
    requires forall k: nat :: n <= k < n + rounds ==> leads(k, v, v)
    ensures Path(leads, n, v, rounds)
    decreases rounds
  {
    if rounds > 0 {
      PathStays(leads, n + 1, v, rounds - 1);
      assert leads(n, v, v);
    }
  }

  /** There and back in two rounds. */
  ghost predicate Back(leads: (nat, OriginView, OriginView) -> bool, n: nat, v: OriginView, w: OriginView) {
    leads(n, v, w) && leads(n + 1, w, v)
  }

  /** A call that keeps coming back to one view by way of others goes on. */
  lemma {:induction false} PathComesBack(leads: (nat, OriginView, OriginView) -> bool, n: nat, v: OriginView, between: nat -> OriginView, rounds: nat)
    requires forall k: nat :: Back(leads, k, v, between(k))
    ensures Path(leads, n, v, rounds)
    ensures Path(leads, n + 1, between(n), rounds)
    decreases rounds
  {
    if rounds > 0 {
      PathComesBack(leads, n, v, between, rounds - 1);
      PathComesBack(leads, n + 2, v, between, rounds - 1);
      assert Back(leads, n, v, between(n));
    }
  }

  /** Two views that lead to each other in every round. */
  lemma {:induction false} PathAlternates(leads: (nat, OriginView, OriginView) -> bool, n: nat, v: OriginView, w: OriginView, rounds: nat)
    requires forall k: nat :: n <= k < n + rounds ==> leads(k, v, w) && leads(k, w, v)
    ensures Path(leads, n, v, rounds) && Path(leads, n, w, rounds)
    decreases rounds
  {
    if rounds > 0 {
      PathAlternates(leads, n + 1, v, w, rounds - 1);
      assert leads(n, v, w) && leads(n, w, v);
    }
  }

  /** Without an end to deferrals: a resource that defers and then refuses is asked again from the same state ... */
  lemma RefusedDeferralRepeats(env: Env, origin: string, n: nat, tried: bool, refusal: Response)
    requires env.respond(n, AgentSigned) == Some(DEFERRED) && env.poll(n, DEFERRED) == Some(refusal)
    requires refusal.status == 403 && refusal.access == []
    ensures var v := OriginView(map[], None, tried);
            && ValidScans(env, n, v, Scans(None, None, None))
            && RoundOf(env, origin, n, v, Scans(None, None, None)) == (v, Again)
  {
  }

  /** ... any number of times. */
  lemma RefusedDeferralGoesOn(env: Env, origin: string, n: nat, tried: bool, refusal: Response, rounds: nat)
    requires forall k: nat :: n <= k < n + rounds ==> env.respond(k, AgentSigned) == Some(DEFERRED) && env.poll(k, DEFERRED) == Some(refusal)
    requires refusal.status == 403 && refusal.access == []
    ensures StillGoing(env, origin, n, OriginView(map[], None, tried), rounds)
  {
    var v := OriginView(map[], None, tried);
    forall k: nat | n <= k < n + rounds ensures LeadsOf(env, origin)(k, v, v) {
      RefusedDeferralRepeats(env, origin, k, tried, refusal);
    }
    PathStays(LeadsOf(env, origin), n, v, rounds);
  }

  lemma RefusedOpaqueDeferralRepeats(env: Env, origin: string, n: nat, token: string, tried: bool, refusal: Response)
    requires env.respond(n, OpaqueAttempt(token)) == Some(DEFERRED) && env.poll(n, DEFERRED) == Some(refusal)
    requires refusal.status == 403 && refusal.access == []
    ensures var v := OriginView(map[], Some(token), tried);
            && ValidScans(env, n, v, Scans(None, None, None))
            && RoundOf(env, origin, n, v, Scans(None, None, None)) == (v, Again)
  {
    var v := OriginView(map[], Some(token), tried);
    assert AccessOf(DEFERRED) == None && AccessOf(refusal) == None;
    assert Attempted(v, None, env.clock(n)) == (v, OpaqueAttempt(token));
  }

  /** The same for a request with an opaque token. */
  lemma RefusedOpaqueDeferralGoesOn(env: Env, origin: string, n: nat, token: string, tried: bool, refusal: Response, rounds: nat)
    requires forall k: nat :: n <= k < n + rounds ==>
               env.respond(k, OpaqueAttempt(token)) == Some(DEFERRED) && env.poll(k, DEFERRED) == Some(refusal)
    requires refusal.status == 403 && refusal.access == []
    ensures StillGoing(env, origin, n, OriginView(map[], Some(token), tried), rounds)
  {
    var v := OriginView(map[], Some(token), tried);
    forall k: nat | n <= k < n + rounds ensures LeadsOf(env, origin)(k, v, v) {
      RefusedOpaqueDeferralRepeats(env, origin, k, token, tried, refusal);
    }
    PathStays(LeadsOf(env, origin), n, v, rounds);
  }

  /** When cached auth tokens are deferred: one keeps being tried before the access just granted ... */
  lemma DeferredAuthRepeats(env: Env, origin: string, n: nat, key: TokenKey, cached: CachedToken, token: string, tried: bool, grant: Response)
    requires cached.expiresAt > env.clock(n) + 60 * SECOND
    requires env.respond(n, AuthTokenAttempt(cached.authToken)) == Some(DEFERRED) && env.poll(n, DEFERRED) == Some(grant)
    requires grant.status == 200 && AccessOf(grant) == Some(token)
    ensures var v := OriginView(map[key := cached], Some(token), tried);
            var s := Scans(Some(key), Some(key), Some(key));
            ValidScans(env, n, v, s) && RoundOf(env, origin, n, v, s) == (v, Again)
  {
    var v := OriginView(map[key := cached], Some(token), tried);
    assert AccessOf(DEFERRED) == None;
    assert v.(opaqueToken := Some(token)) == v;
  }

  /** ... any number of times, until it expires. */
  lemma DeferredAuthGoesOn(
    env: Env, origin: string, n: nat, key: TokenKey, cached: CachedToken, token: string, tried: bool, grant: Response, rounds: nat)
    requires forall k: nat :: n <= k < n + rounds ==>
               && cached.expiresAt > env.clock(k) + 60 * SECOND
               && env.respond(k, AuthTokenAttempt(cached.authToken)) == Some(DEFERRED) && env.poll(k, DEFERRED) == Some(grant)
    requires grant.status == 200 && AccessOf(grant) == Some(token)
    ensures StillGoing(env, origin, n, OriginView(map[key := cached], Some(token), tried), rounds)
  {
    var v := OriginView(map[key := cached], Some(token), tried);
    forall k: nat | n <= k < n + rounds ensures LeadsOf(env, origin)(k, v, v) {
      DeferredAuthRepeats(env, origin, k, key, cached, token, tried, grant);
    }
    PathStays(LeadsOf(env, origin), n, v, rounds);
  }

  /** Without accepting what was issued: a round that obtains a token ... */
  lemma ChallengedRound(env: Env, origin: string, n: nat, challenge: Response, resourceToken: string, x: Exchange, v: OriginView)
    requires v.tokens == map[] && v.opaqueToken.None?
    requires Observed(v, AgentSigned, challenge, None).1 == Ok(ExchangeToken(resourceToken))
    requires env.respond(n, AgentSigned) == Some(challenge) && env.exchange(n, resourceToken) == Some(x)
    ensures ValidScans(env, n, v, Scans(None, None, None))
    ensures RoundOf(env, origin, n, v, Scans(None, None, None)) == (Recorded(v, origin, x), Again)
  {
    SignedStep(v, challenge, None);
    assert Attempted(v, None, env.clock(n)) == (v, AgentSigned);
    assert Observed(v, AgentSigned, challenge, None) == (v, Ok(ExchangeToken(resourceToken)));
  }

  /** ... is followed by one that loses it again and leaves the caches as they were ... */
  lemma RefusedAuthRound(env: Env, origin: string, n: nat, x: Exchange, v: OriginView)
    requires v.tokens == map[] && x.recordedAt + x.expiresIn * SECOND > env.clock(n) + 60 * SECOND
    requires env.respond(n, AuthTokenAttempt(x.token)) == Some(REFUSED)
    ensures var (v', first) := (Recorded(v, origin, x), Some(TokenKey(origin, x.personServer)));
            && ValidScans(env, n, v', Scans(first, first, None))
            && RoundOf(env, origin, n, v', Scans(first, first, None)) == (v, Again)
  {
    var key, v' := TokenKey(origin, x.personServer), Recorded(v, origin, x);
    var attempt := AuthTokenAttempt(x.token);
    assert v'.tokens - {key} == v.tokens;
    assert Attempted(v', Some(key), env.clock(n)) == (v', attempt);
    assert Observed(v', attempt, REFUSED, Some(key)) == (v, Ok(Invalidate(attempt)));
  }

  /** Round `k` obtains `x`, and the next one has it refused. */
  predicate IssuesAndRefuses(env: Env, k: nat, challenge: Response, resourceToken: string, x: Exchange) {
    && env.respond(k, AgentSigned) == Some(challenge) && env.exchange(k, resourceToken) == Some(x)
    && env.respond(k + 1, AuthTokenAttempt(x.token)) == Some(REFUSED)
    && x.recordedAt + x.expiresIn * SECOND > env.clock(k + 1) + 60 * SECOND
  }

  lemma IssuedThenRefused(env: Env, origin: string, n: nat, challenge: Response, resourceToken: string, x: Exchange, v: OriginView)
    requires v.tokens == map[] && v.opaqueToken.None? && Observed(v, AgentSigned, challenge, None).1 == Ok(ExchangeToken(resourceToken))
    requires IssuesAndRefuses(env, n, challenge, resourceToken, x)
    ensures Back(LeadsOf(env, origin), n, v, Recorded(v, origin, x))
  {
    ChallengedRound(env, origin, n, challenge, resourceToken, x, v);
    RefusedAuthRound(env, origin, n + 1, x, v);
  }

  /** ... any number of times; the tokens may all be different. */
  lemma RefusedAuthGoesOn(
    env: Env, origin: string, n: nat, challenge: Response, resourceToken: string, tokens: nat -> Exchange, v: OriginView, rounds: nat)
    requires v.tokens == map[] && v.opaqueToken.None? && Observed(v, AgentSigned, challenge, None).1 == Ok(ExchangeToken(resourceToken))
    requires forall k: nat :: IssuesAndRefuses(env, k, challenge, resourceToken, tokens(k))
    ensures StillGoing(env, origin, n, v, rounds)
  {
    var between := (k: nat) => Recorded(v, origin, tokens(k));
    forall k: nat ensures Back(LeadsOf(env, origin), k, v, between(k)) {
      IssuedThenRefused(env, origin, k, challenge, resourceToken, tokens(k), v);
    }
    PathComesBack(LeadsOf(env, origin), n, v, between, rounds);
  }

  lemma OpaqueGivenAndTaken(env: Env, origin: string, n: nat, token: string, tried: bool, grant: Response)
    requires env.respond(n, AgentSigned) == Some(grant) && grant.status == 200 && AccessOf(grant) == Some(token)
    requires env.respond(n, OpaqueAttempt(token)) == Some(REFUSED)
    ensures var (none, some) := (OriginView(map[], None, tried), OriginView(map[], Some(token), tried));
            var s := Scans(None, None, None);
            && ValidScans(env, n, none, s) && RoundOf(env, origin, n, none, s) == (some, Again)
            && ValidScans(env, n, some, s) && RoundOf(env, origin, n, some, s) == (none, Again)
  {
    var none, some := OriginView(map[], None, tried), OriginView(map[], Some(token), tried);
    assert Attempted(none, None, env.clock(n)) == (none, AgentSigned);
    assert Attempted(some, None, env.clock(n)) == (some, OpaqueAttempt(token));
    assert none.(opaqueToken := Some(token)) == some && some.(opaqueToken := None) == none;
  }

  /** The same with opaque tokens: granted in one round and refused in the next, any number of times. */
  lemma RefusedOpaqueGoesOn(env: Env, origin: string, n: nat, token: string, tried: bool, grant: Response, rounds: nat)
    requires grant.status == 200 && AccessOf(grant) == Some(token)
    requires forall k: nat :: n <= k < n + rounds ==>
               env.respond(k, AgentSigned) == Some(grant) && env.respond(k, OpaqueAttempt(token)) == Some(REFUSED)
    ensures StillGoing(env, origin, n, OriginView(map[], None, tried), rounds)
    ensures StillGoing(env, origin, n, OriginView(map[], Some(token), tried), rounds)
  {
    var none, some := OriginView(map[], None, tried), OriginView(map[], Some(token), tried);
    forall k: nat | n <= k < n + rounds ensures LeadsOf(env, origin)(k, none, some) && LeadsOf(env, origin)(k, some, none) {
      OpaqueGivenAndTaken(env, origin, k, token, tried, grant);
    }
    PathAlternates(LeadsOf(env, origin), n, none, some, rounds);
  }
}
