/**
 The agent's credential caches.

 One `AgentAuth` serves every origin an agent talks to. What an origin sees of it is an
 `OriginView`; each call is specified on the view of its own origin and leaves the views
 of all others alone. Which cached token a map with several person servers yields first
 is left open. Time is in nanoseconds.
 */
module AgentCaches {
  import opened Prelude
  import Headers
  import Text
  import Token68

  const SECOND := 1_000_000_000

  datatype Attempt = AuthTokenAttempt(authToken: string) | OpaqueAttempt(opaqueToken: string) | AgentSigned

  datatype Step = Finish | RetryWithOpaque | ExchangeToken(resourceToken: string) | PollDeferred | Invalidate(attempt: Attempt)

  datatype CachedToken = CachedToken(authToken: string, expiresAt: nat)

  datatype TokenKey = TokenKey(origin: string, personServer: string)

  /** What the state machine reads of a response; a header that is not text counts as absent. */
  datatype Response = Response(status: nat, access: seq<Option<string>>, requirement: Option<string>, location: Option<string>)

  datatype OriginView = OriginView(tokens: map<TokenKey, CachedToken>, opaqueToken: Option<string>, tried: bool)

  const EMPTY_VIEW := OriginView(map[], None, false)

  // ----- one call, seen from its origin -----

  /** `first` is the token a scan of the cache meets first. */
  predicate IsFirst(v: OriginView, first: Option<TokenKey>) {
    if first.Some? then first.value in v.tokens else v.tokens == map[]
  }

  function FallBack(v: OriginView): (r: Attempt) {
    if v.opaqueToken.Some? then OpaqueAttempt(v.opaqueToken.value) else AgentSigned
  }

  /** The first cached token if it lives longer than 60 s; otherwise it is dropped and not replaced by another. */
  function Attempted(v: OriginView, first: Option<TokenKey>, now: nat): (r: (OriginView, Attempt))
    requires IsFirst(v, first)
  {
    match first
    case None => (v, FallBack(v))
    case Some(key) =>
      if v.tokens[key].expiresAt > now + 60 * SECOND then (v, AuthTokenAttempt(v.tokens[key].authToken))
      else (v.(tokens := v.tokens - {key}), FallBack(v))
  }

  /** The token of a response that carries exactly one well-formed `AAuth-Access`. */
  function AccessOf(resp: Response): (r: Option<string>)
    ensures r.Some? ==> Token68.IsToken68(r.value)
  {
    if |resp.access| == 1 && resp.access[0].Some? then Token68.ParseAccessHeader(resp.access[0].value) else None
  }

  function Observed(v: OriginView, attempt: Attempt, resp: Response, first: Option<TokenKey>)
    : (r: (OriginView, Result<Step, Headers.HeaderError>))
    requires IsFirst(v, first)
  {
    if resp.status != 401 then
      var access := AccessOf(resp);
      var v' := if access.Some? then v.(opaqueToken := access) else v;
      if resp.status == 202 then (v', Ok(PollDeferred))
      else if access.Some? && access != v.opaqueToken && attempt.AgentSigned? then (v', Ok(RetryWithOpaque))
      else (v', Ok(Finish))
    else
      match attempt
      case AuthTokenAttempt(_) =>
        (if first.Some? then v.(tokens := v.tokens - {first.value}) else v, Ok(Invalidate(attempt)))
      case OpaqueAttempt(_) => (v.(opaqueToken := None), Ok(Invalidate(attempt)))
      case AgentSigned =>
        match resp.requirement
        case None => (v, Ok(Finish))
        case Some(header) =>
          match Headers.FromHeader(header)
          case Err(e) => (v, Err(e))
          case Ok(AuthTokenNeeded(token)) => (v, Ok(ExchangeToken(token)))
          case Ok(AgentTokenNeeded) => (v, Ok(Finish))
          case Ok(ApprovalPending) => (v, Ok(Finish))
          case Ok(InteractionNeeded(_, _)) => (v, Ok(Finish))
          case Ok(ClarificationNeeded) => (v, Ok(Finish))
          case Ok(ClaimsNeeded) => (v, Ok(Finish))
  }

  datatype Event =
    | BeginAuthorize
    | SeedOpaque
    | NextAttempt(first: Option<TokenKey>, now: nat)
    | Observe(attempt: Attempt, resp: Response, first: Option<TokenKey>)
    | Record(key: TokenKey, token: string, expiresIn: nat, now: nat)

  predicate ValidEvent(v: OriginView, ev: Event) {
    match ev
    case NextAttempt(first, _) => IsFirst(v, first)
    case Observe(_, _, first) => IsFirst(v, first)
    case _ => true
  }

  function After(seed: Option<string>, v: OriginView, ev: Event): (r: OriginView)
    requires ValidEvent(v, ev)
  {
    match ev
    case BeginAuthorize => if v.opaqueToken.Some? then v else v.(tried := true)
    case SeedOpaque => if v.opaqueToken.None? then v.(opaqueToken := seed) else v
    case NextAttempt(first, now) => Attempted(v, first, now).0
    case Observe(attempt, resp, first) => Observed(v, attempt, resp, first).0
    case Record(key, token, expiresIn, now) => v.(tokens := v.tokens[key := CachedToken(token, now + expiresIn * SECOND)])
  }

  // ----- the history of one origin -----

  predicate ValidHistory(seed: Option<string>, h: seq<Event>)
    decreases |h|, 0
  {
    h == [] || (ValidHistory(seed, h[..|h| - 1]) && ValidEvent(Replay(seed, h[..|h| - 1]), h[|h| - 1]))
  }

  function Replay(seed: Option<string>, h: seq<Event>): (r: OriginView)
    requires ValidHistory(seed, h)
    decreases |h|, 1
  {
    if h == [] then EMPTY_VIEW else After(seed, Replay(seed, h[..|h| - 1]), h[|h| - 1])
  }

  function Logged(log: map<string, seq<Event>>, origin: string): (r: seq<Event>) {
    if origin in log then log[origin] else []
  }

  datatype Caches = Caches(tokenCache: map<TokenKey, CachedToken>, opaqueCache: map<string, string>, authorizeTried: set<string>)

  function ViewOf(c: Caches, origin: string): (v: OriginView) {
    OriginView(map key | key in c.tokenCache && key.origin == origin :: c.tokenCache[key],
               if origin in c.opaqueCache then Some(c.opaqueCache[origin]) else None,
               origin in c.authorizeTried)
  }

  type Log = map<string, seq<Event>>

  /** The caches equal what each origin's own events make of them. */
  ghost predicate Consistent(seed: Option<string>, c: Caches, log: Log) {
    forall origin :: ValidHistory(seed, Logged(log, origin)) && ViewOf(c, origin) == Replay(seed, Logged(log, origin))
  }

  /** One event happened to one origin, and nothing to any other. */
  ghost predicate Did(seed: Option<string>, c: Caches, c': Caches, origin: string, ev: Event) {
    && ValidEvent(ViewOf(c, origin), ev)
    && ViewOf(c', origin) == After(seed, ViewOf(c, origin), ev)
    && forall other :: other != origin ==> ViewOf(c', other) == ViewOf(c, other)
  }

  /** The view of one origin became `v`. */
  ghost predicate ViewSet(c: Caches, c': Caches, origin: string, v: OriginView) {
    ViewOf(c', origin) == v && forall other :: other != origin ==> ViewOf(c', other) == ViewOf(c, other)
  }

  lemma TokenDropped(c: Caches, key: TokenKey)
    ensures ViewSet(c, c.(tokenCache := c.tokenCache - {key}), key.origin,
                    ViewOf(c, key.origin).(tokens := ViewOf(c, key.origin).tokens - {key}))
  {
  }

  lemma TokenPut(c: Caches, key: TokenKey, t: CachedToken)
    ensures ViewSet(c, c.(tokenCache := c.tokenCache[key := t]), key.origin,
                    ViewOf(c, key.origin).(tokens := ViewOf(c, key.origin).tokens[key := t]))
  {
  }

  lemma OpaqueSet(c: Caches, origin: string, token: Option<string>)
    ensures ViewSet(c, c.(opaqueCache := if token.Some? then c.opaqueCache[origin := token.value] else c.opaqueCache - {origin}),
                    origin, ViewOf(c, origin).(opaqueToken := token))
  {
  }

  function LogOne(log: Log, origin: string, ev: Event): (r: Log) {
    log[origin := Logged(log, origin) + [ev]]
  }

  lemma DidKeepsConsistent(seed: Option<string>, c: Caches, c': Caches, log: Log, origin: string, ev: Event)
    requires Consistent(seed, c, log) && Did(seed, c, c', origin, ev)
    ensures Consistent(seed, c', LogOne(log, origin, ev))
  {
    var h := Logged(log, origin);
    assert (h + [ev])[..|h|] == h;
    forall o ensures ValidHistory(seed, Logged(LogOne(log, origin, ev), o))
                  && ViewOf(c', o) == Replay(seed, Logged(LogOne(log, origin, ev), o)) {
      assert ValidHistory(seed, Logged(log, o)) && ViewOf(c, o) == Replay(seed, Logged(log, o));
      if o != origin {
        assert Logged(LogOne(log, origin, ev), o) == Logged(log, o);
      }
    }
  }

  class AgentAuth {
    var tokenCache: map<TokenKey, CachedToken>
    var opaqueCache: map<string, string>
    var authorizeTried: set<string>
    const seed: Option<string>
    ghost var log: Log

    function State(): (r: Caches)
      reads this
    {
      Caches(tokenCache, opaqueCache, authorizeTried)
    }

    ghost predicate Valid()
      reads this
    {
      Consistent(seed, State(), log)
    }

    constructor (seed: Option<string>)
      ensures Valid() && this.seed == seed
      ensures State() == Caches(map[], map[], {}) && log == map[]
    {
      tokenCache, opaqueCache, authorizeTried, log := map[], map[], {}, map[];
      this.seed := seed;
    }

    method BeginAuthorizeAttempt(origin: string) returns (granted: bool)
      requires Valid()
      modifies this
      ensures Valid()
      ensures Did(seed, old(State()), State(), origin, BeginAuthorize)
      ensures granted == (ViewOf(old(State()), origin).opaqueToken.None? && !ViewOf(old(State()), origin).tried)
    {
      log := LogOne(log, origin, BeginAuthorize);
      if origin in opaqueCache {
        granted := false;
      } else {
        granted := origin !in authorizeTried;
        authorizeTried := authorizeTried + {origin};
      }
      DidKeepsConsistent(seed, old(State()), State(), old(log), origin, BeginAuthorize);
    }

    method SeedOpaqueFor(origin: string)
      requires Valid()
      modifies this
      ensures Valid()
      ensures Did(seed, old(State()), State(), origin, SeedOpaque)
    {
      log := LogOne(log, origin, SeedOpaque);
      if seed.Some? && origin !in opaqueCache {
        opaqueCache := opaqueCache[origin := seed.value];
      }
      DidKeepsConsistent(seed, old(State()), State(), old(log), origin, SeedOpaque);
    }

    method FindCachedTokenKey(origin: string) returns (first: Option<TokenKey>)
      ensures IsFirst(ViewOf(State(), origin), first)
    {
      var own := set key | key in tokenCache && key.origin == origin;
      if own == {} {
        first := None;
        assert ViewOf(State(), origin).tokens.Keys == own;
      } else {
        var key :| key in own;
        first := Some(key);
      }
    }

    method Next(origin: string, now: nat) returns (attempt: Attempt)
      requires Valid()
      modifies this
      ensures Valid()
      ensures exists first ::
                && Did(seed, old(State()), State(), origin, NextAttempt(first, now))
                && attempt == Attempted(ViewOf(old(State()), origin), first, now).1
    {
      var first := FindCachedTokenKey(origin);
      log := LogOne(log, origin, NextAttempt(first, now));
      attempt := if origin in opaqueCache then OpaqueAttempt(opaqueCache[origin]) else AgentSigned;
      if first.Some? {
        var cached := tokenCache[first.value];
        if cached.expiresAt > now + 60 * SECOND {
          attempt := AuthTokenAttempt(cached.authToken);
        } else {
          TokenDropped(State(), first.value);
          tokenCache := tokenCache - {first.value};
        }
      }
      DidKeepsConsistent(seed, old(State()), State(), old(log), origin, NextAttempt(first, now));
    }

    method ObserveResponse(origin: string, attempt: Attempt, resp: Response) returns (step: Result<Step, Headers.HeaderError>)
      requires Valid()
      modifies this
      ensures Valid()
      ensures exists first ::
                && Did(seed, old(State()), State(), origin, Observe(attempt, resp, first))
                && step == Observed(ViewOf(old(State()), origin), attempt, resp, first).1
    {
      var first := FindCachedTokenKey(origin);
      log := LogOne(log, origin, Observe(attempt, resp, first));
      if resp.status != 401 {
        step := ObserveAccepted(origin, attempt, resp, first);
      } else {
        step := ObserveRefused(origin, attempt, resp, first);
      }
      assert Did(seed, old(State()), State(), origin, Observe(attempt, resp, first));
      DidKeepsConsistent(seed, old(State()), State(), old(log), origin, Observe(attempt, resp, first));
    }

    method ObserveAccepted(origin: string, attempt: Attempt, resp: Response, ghost first: Option<TokenKey>)
      returns (step: Result<Step, Headers.HeaderError>)
      requires resp.status != 401 && IsFirst(ViewOf(State(), origin), first)
      modifies this`opaqueCache
      ensures var (v, s) := Observed(ViewOf(old(State()), origin), attempt, resp, first);
              ViewSet(old(State()), State(), origin, v) && step == s
    {
      if AccessOf(resp).Some? {
        OpaqueSet(State(), origin, AccessOf(resp));
      }
      var changed := CacheOpaqueFromHeaders(origin, resp);
      if resp.status == 202 {
        return Ok(PollDeferred);
      }
      if changed && attempt.AgentSigned? {
        return Ok(RetryWithOpaque);
      }
      step := Ok(Finish);
    }

    method ObserveRefused(origin: string, attempt: Attempt, resp: Response, first: Option<TokenKey>)
      returns (step: Result<Step, Headers.HeaderError>)
      requires resp.status == 401 && IsFirst(ViewOf(State(), origin), first)
      modifies this`opaqueCache, this`tokenCache
      ensures var (v, s) := Observed(ViewOf(old(State()), origin), attempt, resp, first);
              ViewSet(old(State()), State(), origin, v) && step == s
    {
      match attempt {
        case AuthTokenAttempt(_) =>
          if first.Some? {
            TokenDropped(State(), first.value);
            tokenCache := tokenCache - {first.value};
          }
          step := Ok(Invalidate(attempt));
        case OpaqueAttempt(_) =>
          OpaqueSet(State(), origin, None);
          opaqueCache := opaqueCache - {origin};
          step := Ok(Invalidate(attempt));
        case AgentSigned =>
          step := Ok(Finish);
          if resp.requirement.Some? {
            var challenge := Headers.FromHeader(resp.requirement.value);
            if challenge.Err? {
              step := Err(challenge.error);
            } else if challenge.value.AuthTokenNeeded? {
              step := Ok(ExchangeToken(challenge.value.resourceToken));
            }
          }
      }
    }

    method CacheOpaqueFromHeaders(origin: string, resp: Response) returns (changed: bool)
      modifies this`opaqueCache
      ensures opaqueCache == if AccessOf(resp).Some? then old(opaqueCache)[origin := AccessOf(resp).value] else old(opaqueCache)
      ensures changed == (AccessOf(resp).Some? && AccessOf(resp) != ViewOf(old(State()), origin).opaqueToken)
    {
      if |resp.access| == 0 || resp.access[0].None? {
        return false;
      }
      if |resp.access| > 1 {
        return false;
      }
      var token := Token68.ParseAccessHeader(resp.access[0].value);
      if token.None? {
        return false;
      }
      changed := origin !in opaqueCache || opaqueCache[origin] != token.value;
      if changed {
        opaqueCache := opaqueCache[origin := token.value];
      } else {
        assert opaqueCache == opaqueCache[origin := token.value];
      }
    }

    method RecordAuthToken(origin: string, personServer: string, token: string, expiresIn: nat, now: nat)
      requires Valid()
      modifies this
      ensures Valid()
      ensures Did(seed, old(State()), State(), origin, Record(TokenKey(origin, personServer), token, expiresIn, now))
    {
      var key := TokenKey(origin, personServer);
      log := LogOne(log, origin, Record(key, token, expiresIn, now));
      TokenPut(State(), key, CachedToken(token, now + expiresIn * SECOND));
      tokenCache := tokenCache[key := CachedToken(token, now + expiresIn * SECOND)];
      DidKeepsConsistent(seed, old(State()), State(), old(log), origin, Record(key, token, expiresIn, now));
    }
  }

  // ----- what a history determines -----

  /** The prefix before event `i`, and the event, are valid. */
  lemma {:induction false} PrefixValid(seed: Option<string>, h: seq<Event>, i: nat)
    requires ValidHistory(seed, h) && i <= |h|
    ensures ValidHistory(seed, h[..i])
    ensures i < |h| ==> ValidHistory(seed, h[..i + 1]) && ValidEvent(Replay(seed, h[..i]), h[i])
                        && Replay(seed, h[..i + 1]) == After(seed, Replay(seed, h[..i]), h[i])
    decreases |h| - i
  {
    if i == |h| {
      assert h[..i] == h;
    } else {
      PrefixValid(seed, h, i + 1);
      assert h[..i + 1][..i] == h[..i];
    }
  }

  predicate Records(ev: Event, key: TokenKey, cached: CachedToken) {
    ev.Record? && ev.key == key && CachedToken(ev.token, ev.now + ev.expiresIn * SECOND) == cached
  }

  lemma CachedStep(seed: Option<string>, v: OriginView, ev: Event, key: TokenKey)
    requires ValidEvent(v, ev) && key in After(seed, v, ev).tokens
    ensures Records(ev, key, After(seed, v, ev).tokens[key])
            || (key in v.tokens && v.tokens[key] == After(seed, v, ev).tokens[key])
  {
  }

  /** Every cached token is one that was recorded, with the lifetime it was recorded with. */
  lemma {:induction false} CachedWasRecorded(seed: Option<string>, h: seq<Event>, key: TokenKey)
    requires ValidHistory(seed, h) && key in Replay(seed, h).tokens
    ensures exists i :: 0 <= i < |h| && Records(h[i], key, Replay(seed, h).tokens[key])
  {
    var n := |h| - 1;
    if h != [] {
      CachedStep(seed, Replay(seed, h[..n]), h[n], key);
      if !Records(h[n], key, Replay(seed, h).tokens[key]) {
        CachedWasRecorded(seed, h[..n], key);
        var i :| 0 <= i < n && Records(h[..n][i], key, Replay(seed, h[..n]).tokens[key]);
        assert Records(h[i], key, Replay(seed, h).tokens[key]);
      }
    }
  }

  /** No token with 60 seconds or less to live is offered, and every offered one was recorded. */
  lemma OfferedTokenIsFresh(seed: Option<string>, h: seq<Event>, first: Option<TokenKey>, now: nat)
    requires ValidHistory(seed, h) && IsFirst(Replay(seed, h), first)
    requires Attempted(Replay(seed, h), first, now).1.AuthTokenAttempt?
    ensures exists i :: 0 <= i < |h| && h[i].Record? && h[i].token == Attempted(Replay(seed, h), first, now).1.authToken
                     && h[i].now + h[i].expiresIn * SECOND > now + 60 * SECOND
  {
    CachedWasRecorded(seed, h, first.value);
    var i :| 0 <= i < |h| && Records(h[i], first.value, Replay(seed, h).tokens[first.value]);
    assert h[i].Record?;
  }

  /** The event supplies the opaque token `t`. */
  predicate Supplies(seed: Option<string>, before: OriginView, ev: Event, t: string) {
    || (ev.Observe? && ev.resp.status != 401 && AccessOf(ev.resp) == Some(t))
    || (ev.SeedOpaque? && before.opaqueToken.None? && seed == Some(t))
  }

  /** The event takes the opaque token away or puts another in its place. */
  predicate Ends(ev: Event, t: string) {
    ev.Observe? && if ev.resp.status == 401 then ev.attempt.OpaqueAttempt? else AccessOf(ev.resp).Some? && AccessOf(ev.resp) != Some(t)
  }

  /** Event `i` supplied `t`, and nothing since then ended it. */
  ghost predicate LastAt(seed: Option<string>, h: seq<Event>, i: nat, t: string) {
    && i < |h| && ValidHistory(seed, h[..i]) && Supplies(seed, Replay(seed, h[..i]), h[i], t)
    && forall j :: i < j < |h| ==> !Ends(h[j], t)
  }

  ghost predicate Current(seed: Option<string>, h: seq<Event>, t: string) {
    exists i: nat :: LastAt(seed, h, i, t)
  }

  lemma LastAtGrows(seed: Option<string>, h: seq<Event>, ev: Event, i: nat, t: string)
    requires i < |h|
    ensures LastAt(seed, h + [ev], i, t) <==> LastAt(seed, h, i, t) && !Ends(ev, t)
  {
    assert (h + [ev])[..i] == h[..i];
    assert (h + [ev])[|h|] == ev;
    assert forall j :: i < j < |h| ==> (h + [ev])[j] == h[j];
  }

  lemma StillCurrent(seed: Option<string>, h: seq<Event>, ev: Event, t: string)
    requires ValidHistory(seed, h)
    ensures Current(seed, h + [ev], t) <==> Supplies(seed, Replay(seed, h), ev, t) || (Current(seed, h, t) && !Ends(ev, t))
  {
    assert (h + [ev])[..|h|] == h;
    assert LastAt(seed, h + [ev], |h|, t) <==> Supplies(seed, Replay(seed, h), ev, t);
    if Current(seed, h, t) && !Ends(ev, t) {
      var i: nat :| LastAt(seed, h, i, t);
      LastAtGrows(seed, h, ev, i, t);
    }
    if Current(seed, h + [ev], t) {
      var i: nat :| LastAt(seed, h + [ev], i, t);
      if i < |h| { LastAtGrows(seed, h, ev, i, t); }
    }
  }

  lemma OpaqueObserved(v: OriginView, attempt: Attempt, resp: Response, first: Option<TokenKey>)
    requires IsFirst(v, first)
    ensures Observed(v, attempt, resp, first).0.opaqueToken
            == if resp.status == 401 then (if attempt.OpaqueAttempt? then None else v.opaqueToken)
               else if AccessOf(resp).Some? then AccessOf(resp) else v.opaqueToken
  {
  }

  lemma OpaqueStep(seed: Option<string>, v: OriginView, ev: Event, t: string)
    requires ValidEvent(v, ev)
    ensures After(seed, v, ev).opaqueToken == Some(t) <==> Supplies(seed, v, ev, t) || (v.opaqueToken == Some(t) && !Ends(ev, t))
  {
    if ev.Observe? { OpaqueObserved(v, ev.attempt, ev.resp, ev.first); }
  }

  /** The cached opaque token is exactly the last one supplied and not since refused or replaced. */
  lemma {:induction false} OpaqueIsCurrent(seed: Option<string>, h: seq<Event>, t: string)
    requires ValidHistory(seed, h)
    ensures Replay(seed, h).opaqueToken == Some(t) <==> Current(seed, h, t)
  {
    if h != [] {
      var before, ev := h[..|h| - 1], h[|h| - 1];
      OpaqueIsCurrent(seed, before, t);
      OpaqueStep(seed, Replay(seed, before), ev, t);
      StillCurrent(seed, before, ev, t);
      assert before + [ev] == h;
    }
  }

  /** After an agent-signed attempt, exactly a response with a valid `AAuth-Access` (and not 401 or 202) asks for a retry with it. */
  lemma AgentSignedThenGranted(v: OriginView, first: Option<TokenKey>, now: nat, resp: Response, first': Option<TokenKey>)
    requires IsFirst(v, first) && Attempted(v, first, now).1.AgentSigned?
    requires IsFirst(Attempted(v, first, now).0, first')
    ensures var (v', step) := Observed(Attempted(v, first, now).0, AgentSigned, resp, first');
            && (step == Ok(RetryWithOpaque) <==> AccessOf(resp).Some? && resp.status !in {401, 202})
            && (step == Ok(RetryWithOpaque) && v'.tokens == map[] ==>
                  forall later :: Attempted(v', None, later) == (v', OpaqueAttempt(AccessOf(resp).value)))
  {
    var v1 := Attempted(v, first, now).0;
    assert v1.opaqueToken.None?;
    GrantObserved(v1, resp, first');
  }

  lemma GrantObserved(v: OriginView, resp: Response, first: Option<TokenKey>)
    requires IsFirst(v, first) && v.opaqueToken.None?
    ensures var (v', step) := Observed(v, AgentSigned, resp, first);
            && (step == Ok(RetryWithOpaque) <==> AccessOf(resp).Some? && resp.status !in {401, 202})
            && (step == Ok(RetryWithOpaque) ==> v' == v.(opaqueToken := AccessOf(resp)))
  {
  }

  /** A call of `begin_authorize_attempt` that answered yes. */
  predicate AuthorizeGranted(v: OriginView, ev: Event) {
    ev.BeginAuthorize? && v.opaqueToken.None? && !v.tried
  }

  lemma TriedStep(seed: Option<string>, v: OriginView, ev: Event)
    requires ValidEvent(v, ev) && v.tried
    ensures After(seed, v, ev).tried
  {
  }

  lemma {:induction false} TriedStays(seed: Option<string>, h: seq<Event>, i: nat)
    requires ValidHistory(seed, h) && i <= |h| && ValidHistory(seed, h[..i]) && Replay(seed, h[..i]).tried
    ensures Replay(seed, h).tried
  {
    if i == |h| {
      assert h[..i] == h;
    } else {
      assert h[..|h| - 1][..i] == h[..i];
      TriedStays(seed, h[..|h| - 1], i);
      TriedStep(seed, Replay(seed, h[..|h| - 1]), h[|h| - 1]);
    }
  }

  /** Proactive authorization is granted at most once per origin. */
  lemma AuthorizeGrantedOnce(seed: Option<string>, h: seq<Event>, i: nat, j: nat)
    requires ValidHistory(seed, h) && i < j < |h|
    requires ValidHistory(seed, h[..i]) && ValidHistory(seed, h[..j])
    requires AuthorizeGranted(Replay(seed, h[..i]), h[i])
    ensures !AuthorizeGranted(Replay(seed, h[..j]), h[j])
  {
    PrefixValid(seed, h, i);
    PrefixValid(seed, h, i + 1);
    assert h[..j][..i + 1] == h[..i + 1];
    TriedStays(seed, h[..j], i + 1);
  }

  // ----- what each event does, exactly -----

  /** The event takes this token out of the cache: it is the one met first, and is too old to offer, or an auth token was refused. */
  predicate Drops(v: OriginView, ev: Event, key: TokenKey)
    requires key in v.tokens
  {
    || (ev.NextAttempt? && ev.first == Some(key) && v.tokens[key].expiresAt <= ev.now + 60_000_000_000)
    || (ev.Observe? && ev.attempt.AuthTokenAttempt? && ev.resp.status == 401 && ev.first == Some(key))
  }

  /** Only such a token leaves, and only a recorded one enters or changes. */
  lemma TokensExactly(seed: Option<string>, v: OriginView, ev: Event, key: TokenKey, cached: CachedToken)
    requires ValidEvent(v, ev)
    ensures var v' := After(seed, v, ev);
            key in v'.tokens && v'.tokens[key] == cached <==>
              || Records(ev, key, cached)
              || (key in v.tokens && v.tokens[key] == cached && !Drops(v, ev, key) && !(ev.Record? && ev.key == key))
  {
    match ev
    case BeginAuthorize =>
    case SeedOpaque =>
    case NextAttempt(_, _) =>
    case Observe(attempt, resp, first) => ObservedTokens(v, attempt, resp, first);
    case Record(_, _, _, _) =>
  }

  lemma ObservedTokens(v: OriginView, attempt: Attempt, resp: Response, first: Option<TokenKey>)
    requires IsFirst(v, first)
    ensures Observed(v, attempt, resp, first).0.tokens
            == if resp.status == 401 && attempt.AuthTokenAttempt? && first.Some? then v.tokens - {first.value} else v.tokens
  {
  }

  /** Event `i` recorded the token, and nothing since then dropped it or recorded another in its place. */
  ghost predicate RecordedAt(seed: Option<string>, h: seq<Event>, i: nat, key: TokenKey, cached: CachedToken) {
    && i < |h| && Records(h[i], key, cached)
    && forall j :: i < j < |h| ==> KeepsAt(seed, h, j, key)
  }

  /** Event `j` leaves the key's token alone. */
  ghost predicate KeepsAt(seed: Option<string>, h: seq<Event>, j: nat, key: TokenKey)
    requires j < |h|
  {
    && !(h[j].Record? && h[j].key == key)
    && ValidHistory(seed, h[..j])
    && (key in Replay(seed, h[..j]).tokens ==> !Drops(Replay(seed, h[..j]), h[j], key))
  }

  lemma RecordedAtGrows(seed: Option<string>, h: seq<Event>, ev: Event, i: nat, key: TokenKey, cached: CachedToken)
    requires i < |h|
    ensures RecordedAt(seed, h + [ev], i, key, cached) <==> RecordedAt(seed, h, i, key, cached) && KeepsAt(seed, h + [ev], |h|, key)
  {
    var h' := h + [ev];
    assert h'[i] == h[i];
    forall j | i < j < |h| ensures KeepsAt(seed, h', j, key) <==> KeepsAt(seed, h, j, key) {
      assert h'[..j] == h[..j] && h'[j] == h[j];
    }
  }

  /** Every recorded token stays cached until it is dropped or recorded anew, and nothing else is cached. */
  lemma {:induction false} CachedExactly(seed: Option<string>, h: seq<Event>, key: TokenKey, cached: CachedToken)
    requires ValidHistory(seed, h)
    ensures key in Replay(seed, h).tokens && Replay(seed, h).tokens[key] == cached
            <==> exists i: nat :: RecordedAt(seed, h, i, key, cached)
  {
    if h != [] {
      var n := |h| - 1;
      var before, ev := h[..n], h[n];
      assert before + [ev] == h;
      CachedExactly(seed, before, key, cached);
      TokensExactly(seed, Replay(seed, before), ev, key, cached);
      forall i: nat | i < n
        ensures RecordedAt(seed, h, i, key, cached) <==> RecordedAt(seed, before, i, key, cached) && KeepsAt(seed, h, n, key)
      {
        RecordedAtGrows(seed, before, ev, i, key, cached);
      }
      if Records(ev, key, cached) {
        assert RecordedAt(seed, h, n, key, cached);
      } else if exists i: nat :: RecordedAt(seed, before, i, key, cached) {
        var i: nat :| RecordedAt(seed, before, i, key, cached);
        assert RecordedAt(seed, h, i, key, cached) <==> KeepsAt(seed, h, n, key);
      }
    }
  }

  /** What an attempt offers: the first cached token if it is lasting, else the opaque token, else nothing but the agent's signature. */
  lemma AttemptExactly(v: OriginView, first: Option<TokenKey>, now: nat, token: string)
    requires IsFirst(v, first)
    ensures var attempt := Attempted(v, first, now).1;
            var lasting := first.Some? && v.tokens[first.value].expiresAt > now + 60_000_000_000;
            && (attempt == AuthTokenAttempt(token) <==> lasting && v.tokens[first.value].authToken == token)
            && (attempt == OpaqueAttempt(token) <==> !lasting && v.opaqueToken == Some(token))
            && (attempt == AgentSigned <==> !lasting && v.opaqueToken.None?)
  {
  }

  /** The challenge of a refusal, if it has one that can be read. */
  function ChallengeIn(resp: Response): (r: Option<Headers.Challenge>) {
    if resp.status != 401 || resp.requirement.None? then None
    else match Headers.FromHeader(resp.requirement.value)
      case Err(_) => None
      case Ok(c) => Some(c)
  }

  /** What the agent does next. */
  lemma StepExactly(v: OriginView, attempt: Attempt, resp: Response, first: Option<TokenKey>, resourceToken: string)
    requires IsFirst(v, first)
    ensures var step := Observed(v, attempt, resp, first).1;
            var refused := resp.status == 401;
            && (step == Ok(PollDeferred) <==> resp.status == 202)
            && (step == Ok(RetryWithOpaque) <==>
                  attempt.AgentSigned? && resp.status !in {401, 202} && AccessOf(resp).Some? && AccessOf(resp) != v.opaqueToken)
            && (step == Ok(Invalidate(attempt)) <==> refused && !attempt.AgentSigned?)
            && (step == Ok(ExchangeToken(resourceToken)) <==>
                  refused && attempt.AgentSigned? && ChallengeIn(resp) == Some(Headers.AuthTokenNeeded(resourceToken)))
            && (step.Err? <==> refused && attempt.AgentSigned? && resp.requirement.Some? && ChallengeIn(resp).None?)
            && (step == Ok(Finish) <==>
                  if refused then
                    attempt.AgentSigned? && (resp.requirement.None? || (ChallengeIn(resp).Some? && !ChallengeIn(resp).value.AuthTokenNeeded?))
                  else resp.status != 202 && !(attempt.AgentSigned? && AccessOf(resp).Some? && AccessOf(resp) != v.opaqueToken))
  {
  }

  /** An access header counts exactly when it is the only one and its text is a token68, give or take surrounding space. */
  lemma AccessExactly(resp: Response, token: string)
    ensures AccessOf(resp) == Some(token) <==>
              |resp.access| == 1 && resp.access[0].Some? && Token68.Token68Grammar(token) && Text.Trim(resp.access[0].value) == token
  {
    Token68.Token68IsTheGrammar(token);
  }

  /** Event `i` asks for authorization while no opaque token is at hand. */
  ghost predicate TriesAt(seed: Option<string>, h: seq<Event>, i: nat) {
    i < |h| && h[i].BeginAuthorize? && ValidHistory(seed, h[..i]) && Replay(seed, h[..i]).opaqueToken.None?
  }

  /** Authorization counts as tried exactly once it was asked for without an opaque token at hand: the first such call is granted. */
  lemma {:induction false} TriedExactly(seed: Option<string>, h: seq<Event>)
    requires ValidHistory(seed, h)
    ensures Replay(seed, h).tried <==> exists i: nat :: TriesAt(seed, h, i)
  {
    if h != [] {
      var n := |h| - 1;
      TriedExactly(seed, h[..n]);
      TriedAfter(seed, Replay(seed, h[..n]), h[n]);
      forall i: nat | i < n ensures TriesAt(seed, h, i) <==> TriesAt(seed, h[..n], i) {
        assert h[..n][..i] == h[..i];
      }
      if Replay(seed, h[..n]).tried {
        var i: nat :| TriesAt(seed, h[..n], i);
        assert TriesAt(seed, h, i);
      }
      assert TriesAt(seed, h, n) <==> h[n].BeginAuthorize? && Replay(seed, h[..n]).opaqueToken.None?;
    }
  }

  lemma TriedAfter(seed: Option<string>, v: OriginView, ev: Event)
    requires ValidEvent(v, ev)
    ensures After(seed, v, ev).tried <==> v.tried || (ev.BeginAuthorize? && v.opaqueToken.None?)
  {
    match ev
    case BeginAuthorize =>
    case SeedOpaque =>
    case NextAttempt(_, _) =>
    case Observe(attempt, resp, first) => ObservedTried(v, attempt, resp, first);
    case Record(_, _, _, _) =>
  }

  lemma ObservedTried(v: OriginView, attempt: Attempt, resp: Response, first: Option<TokenKey>)
    requires IsFirst(v, first)
    ensures Observed(v, attempt, resp, first).0.tried == v.tried
  {
  }
}
