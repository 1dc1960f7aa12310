/** Deferred responses and pending posts as they travel: headers as text, bodies as JSON values. */
module DeferredWire {
  import opened Prelude
  import opened Text
  import opened Tokens
  import opened Deferral
  import Headers

  // ----- the 202 response -----

  type HeaderFields = map<string, string>

  datatype Printed = Printed(status: nat, fields: HeaderFields, body: Json) | Panicked

  const SERVER_ERROR := Printed(500, map[], Obj(map["error" := Str("server_error")]))

  function StatusName(s: PendingStatus): (r: string) {
    match s
    case Pending => "pending"
    case Interacting => "interacting"
  }

  function Strings(items: seq<string>): (r: seq<Json>)
    ensures |r| == |items| && forall i :: 0 <= i < |r| ==> r[i] == Str(items[i])
  {
    seq(|items|, i requires 0 <= i < |items| => Str(items[i]))
  }

  function BodyJson(body: PendingBody): (r: Json) {
    match body
    case StatusBody(status) => Obj(map["status" := Str(StatusName(status))])
    case ClarificationBody(status, question, timeout) =>
      var m := map["status" := Str(StatusName(status)), "clarification" := Str(question)];
      Obj(if timeout.Some? then m["timeout" := Whole(timeout.value)] else m)
    case ClaimsBody(status, required) =>
      Obj(map["status" := Str(StatusName(status)), "required_claims" := Arr(Strings(required))])
  }

  function ChallengeFor(requirement: Requirement): (r: Option<Headers.Challenge>) {
    match requirement
    case Interaction(url, code) => Some(Headers.InteractionNeeded(url, code))
    case Clarification(_, _) => Some(Headers.ClarificationNeeded)
    case Claims(_) => Some(Headers.ClaimsNeeded)
    case Approval => Some(Headers.ApprovalPending)
    case Payment(_) => None
  }

  const LOCATION := "location"
  const REQUIREMENT := "aauth-requirement"

  /** The headers of every pending reply, next to those already there. */
  function PollFields(fields: HeaderFields, requirement: Requirement): (r: HeaderFields) {
    var m := fields["retry-after" := "0"]["cache-control" := "no-store"];
    match ChallengeFor(requirement)
    case None => m
    case Some(c) => m[REQUIREMENT := Headers.ToHeader(c)]
  }

  predicate PollFieldsOk(requirement: Requirement) {
    ChallengeFor(requirement).Some? ==> HeaderBytes(Headers.ToHeader(ChallengeFor(requirement).value))
  }

  /** The answer to a request that was deferred. */
  function PrintCreated(location: string, requirement: Requirement): (r: Printed) {
    match BodyForWaiting(requirement, Pending)
    case None => SERVER_ERROR
    case Some(body) =>
      if !HeaderBytes(location) || !PollFieldsOk(requirement) then Panicked
      else Printed(202, PollFields(map[LOCATION := location], requirement)["content-type" := "application/json"], BodyJson(body))
  }

  /** The answer to a poll of a request that is still pending. */
  function PrintWaiting(status: PendingStatus, requirement: Requirement): (r: Printed) {
    match BodyForWaiting(requirement, status)
    case None => SERVER_ERROR
    case Some(body) =>
      if !PollFieldsOk(requirement) then Panicked
      else Printed(202, PollFields(map[], requirement)["content-type" := "application/json"], BodyJson(body))
  }

  /** The status of a poll that reports an error. */
  function PollingStatus(error: ProtocolError): (r: nat)
    ensures r !in {200, 202, 401, 503}
  {
    match error.code
    case ExpiredCode => 408
    case InteractionExpiredCode => 408
    case InvalidCodeCode => 410
    case SlowDownCode => 429
    case ServerErrorCode => 500
    case TemporarilyUnavailableCode => 500
    case CustomCode(text) =>
      if text == "expired" || text == "interaction_expired" then 408
      else if text == "invalid_code" then 410
      else if text == "slow_down" then 429
      else if text == "server_error" || text == "temporarily_unavailable" then 500
      else 403
    case _ => 403
  }

  method RespondCreated(location: string, requirement: Requirement) returns (r: Printed)
    ensures r == PrintCreated(location, requirement)
  {
    var body := BodyForWaiting(requirement, Pending);
    if body.None? {
      return SERVER_ERROR;
    }
    var fields: HeaderFields := map[];
    if !HeaderBytes(location) {
      return Panicked;
    }
    fields := fields[LOCATION := location];
    fields := fields["retry-after" := "0"];
    fields := fields["cache-control" := "no-store"];
    var challenge := ChallengeFor(requirement);
    if challenge.Some? {
      if !HeaderBytes(Headers.ToHeader(challenge.value)) {
        return Panicked;
      }
      fields := fields[REQUIREMENT := Headers.ToHeader(challenge.value)];
    }
    fields := fields["content-type" := "application/json"];
    r := Printed(202, fields, BodyJson(body.value));
  }

  datatype WireError =
    | UnexpectedStatus(status: nat) | MissingLocation | MissingRequirement | BadRequirement(error: Headers.HeaderError)
    | BadBody | NotADeferRequirement

  datatype ParsedDeferred = ParsedDeferred(location: string, requirement: Requirement)

  function HeaderValue(fields: HeaderFields, name: string): (r: Option<string>) {
    if name in fields && Readable(fields[name]) then Some(fields[name]) else None
  }

  predicate Absolute(location: string) {
    "http://" <= location || "https://" <= location
  }

  function ParseStatus(j: Json): (r: Option<PendingStatus>) {
    if j == Str("pending") then Some(Pending) else if j == Str("interacting") then Some(Interacting) else None
  }

  /** A list of strings, if it is one. */
  function ParseStrings(items: seq<Json>): (r: Option<seq<string>>) {
    if items == [] then Some([])
    else
      match (items[0], ParseStrings(items[1..]))
      case (Str(s), Some(rest)) => Some([s] + rest)
      case _ => None
  }

  /** An optional field: missing and null are None, anything else must parse. */
  function OptionalField<T>(m: map<string, Json>, key: string, parse: Json -> Option<T>): (r: Option<Option<T>>) {
    if key !in m || m[key].Null? then Some(None)
    else
      match parse(m[key])
      case None => None
      case Some(v) => Some(Some(v))
  }

  function AsString(j: Json): (r: Option<string>) { if j.Str? then Some(j.s) else None }

  function AsU64(j: Json): (r: Option<U64>) {
    if j.Whole? && 0 <= j.n < 0x1_0000_0000_0000_0000 then Some(j.n) else None
  }

  function AsStrings(j: Json): (r: Option<seq<string>>) { if j.Arr? then ParseStrings(j.items) else None }

  function ParseClarification(body: Json): (r: Option<Requirement>) {
    if !body.Obj? then None
    else
      var m := body.members;
      var status := if "status" in m then ParseStatus(m["status"]) else Some(Pending);
      var timeout := OptionalField(m, "timeout", AsU64);
      var options := OptionalField(m, "options", AsStrings);
      if status.None? || timeout.None? || options.None? || "clarification" !in m || !m["clarification"].Str? then None
      else Some(Clarification(m["clarification"].s, timeout.value))
  }

  function ParseClaims(body: Json): (r: Option<Requirement>) {
    if !body.Obj? then None
    else
      var m := body.members;
      if "status" !in m || ParseStatus(m["status"]).None? || "required_claims" !in m || !m["required_claims"].Arr? then None
      else
        match ParseStrings(m["required_claims"].items)
        case None => None
        case Some(required) => Some(Claims(required))
  }

  /** A body that is absent stands for defaults. */
  function RequirementFrom(challenge: Headers.Challenge, body: Option<Json>): (r: Result<Requirement, WireError>) {
    match challenge
    case ClarificationNeeded =>
      (if body.None? then Ok(Clarification("Please clarify your request", None))
       else match ParseClarification(body.value)
         case None => Err(BadBody)
         case Some(q) => Ok(q))
    case ClaimsNeeded =>
      (if body.None? then Ok(Claims([]))
       else match ParseClaims(body.value)
         case None => Err(BadBody)
         case Some(q) => Ok(q))
    case InteractionNeeded(url, code) => Ok(Interaction(url, code))
    case ApprovalPending => Ok(Approval)
    case AgentTokenNeeded => Err(NotADeferRequirement)
    case AuthTokenNeeded(_) => Err(NotADeferRequirement)
  }

  /** `join` resolves a relative location. */
  function ParseDeferred(status: nat, fields: HeaderFields, body: Option<Json>, join: string -> string): (r: Result<ParsedDeferred, WireError>) {
    if status != 202 then Err(UnexpectedStatus(status))
    else
      match HeaderValue(fields, LOCATION)
      case None => Err(MissingLocation)
      case Some(location) =>
        match HeaderValue(fields, REQUIREMENT)
        case None => Err(MissingRequirement)
        case Some(header) =>
          match Headers.FromHeader(header)
          case Err(e) => Err(BadRequirement(e))
          case Ok(challenge) =>
            match RequirementFrom(challenge, body)
            case Err(e) => Err(e)
            case Ok(requirement) => Ok(ParsedDeferred(if Absolute(location) then location else join(location), requirement))
  }

  lemma {:induction false} StringsRoundTrip(items: seq<string>)
    ensures ParseStrings(Strings(items)) == Some(items)
  {
    if items != [] {
      StringsRoundTrip(items[1..]);
      assert Strings(items)[1..] == Strings(items[1..]);
      assert [items[0]] + items[1..] == items;
    }
  }

  /** What header and body together give back for a requirement. */
  lemma BodyGivesBack(requirement: Requirement)
    requires !requirement.Payment?
    ensures RequirementFrom(ChallengeFor(requirement).value, Some(BodyJson(BodyForWaiting(requirement, Pending).value))) == Ok(requirement)
  {
    match requirement
    case Claims(required) => StringsRoundTrip(required);
    case _ =>
  }

  /** The requirements whose header survives. */
  predicate CarriableRequirement(requirement: Requirement) {
    && !requirement.Payment?
    && Headers.Carriable(ChallengeFor(requirement).value)
    && Readable(Headers.ToHeader(ChallengeFor(requirement).value))
  }

  lemma OtherChallenge(requirement: Requirement, challenge: Headers.Challenge, body: Option<Json>)
    requires RequirementFrom(challenge, body) == Ok(requirement)
    ensures ChallengeFor(requirement) == Some(challenge)
  {
  }

  lemma ParsesFields(fields: HeaderFields, body: Json, join: string -> string, location: string, header: string,
                     challenge: Headers.Challenge, requirement: Requirement)
    requires LOCATION in fields && fields[LOCATION] == location && REQUIREMENT in fields && fields[REQUIREMENT] == header
    requires Absolute(location) && ChallengeFor(requirement) == Some(challenge)
    requires RequirementFrom(challenge, Some(body)) == Ok(requirement)
    ensures ParseDeferred(202, fields, Some(body), join) == Ok(ParsedDeferred(location, requirement))
            <==> Readable(location) && Readable(header) && Headers.FromHeader(header) == Ok(challenge)
  {
    var parsed := Headers.FromHeader(header);
    if parsed.Ok? && RequirementFrom(parsed.value, Some(body)) == Ok(requirement) {
      OtherChallenge(requirement, parsed.value, Some(body));
    }
  }

  lemma PrintedFields(location: string, requirement: Requirement)
    requires !requirement.Payment?
    ensures var p := PrintCreated(location, requirement);
            var header := Headers.ToHeader(ChallengeFor(requirement).value);
            && (p.Printed? <==> HeaderBytes(location) && HeaderBytes(header))
            && (p.Printed? ==> p.status == 202 && p.body == BodyJson(BodyForWaiting(requirement, Pending).value)
                               && LOCATION in p.fields && p.fields[LOCATION] == location
                               && REQUIREMENT in p.fields && p.fields[REQUIREMENT] == header)
  {
  }

  /** Parsing a printed deferral gives back the location and the requirement exactly for these. */
  lemma DeferralRoundTrip(location: string, requirement: Requirement, join: string -> string)
    requires Absolute(location)
    ensures var p := PrintCreated(location, requirement);
            (p.Printed? && ParseDeferred(p.status, p.fields, Some(p.body), join) == Ok(ParsedDeferred(location, requirement)))
            <==> Readable(location) && CarriableRequirement(requirement)
  {
    if !requirement.Payment? {
      var challenge := ChallengeFor(requirement).value;
      var header := Headers.ToHeader(challenge);
      ReadableIsHeaderBytes(location);
      ReadableIsHeaderBytes(header);
      PrintedFields(location, requirement);
      Headers.ChallengeRoundTrip(challenge);
      BodyGivesBack(requirement);
      var p := PrintCreated(location, requirement);
      if p.Printed? {
        ParsesFields(p.fields, p.body, join, location, header, challenge, requirement);
      }
    }
  }

  /** A payment requirement is never printed as a deferral, neither at first nor in answer to a poll. */
  lemma PaymentFails(location: string, status: PendingStatus, payment: string, join: string -> string)
    ensures PrintCreated(location, Payment(payment)) == SERVER_ERROR
    ensures PrintWaiting(status, Payment(payment)) == SERVER_ERROR
    ensures ParseDeferred(SERVER_ERROR.status, SERVER_ERROR.fields, Some(SERVER_ERROR.body), join) == Err(UnexpectedStatus(500))
  {
  }

  /** The reply to a poll that is still pending carries no location, so no client parses it as a deferral. */
  lemma WaitingIsRejected(status: PendingStatus, requirement: Requirement, join: string -> string)
    ensures var p := PrintWaiting(status, requirement);
            p.Printed? ==> ParseDeferred(p.status, p.fields, Some(p.body), join)
                           == Err(if requirement.Payment? then UnexpectedStatus(500) else MissingLocation)
  {
  }

  // ----- posts to a pending URL -----

  const RESERVED := {"sub", "email", "tenant"}

  function ParseClaimsSubmission(m: map<string, Json>): (r: Option<ClaimsSubmission>) {
    var email, tenant := OptionalField(m, "email", AsString), OptionalField(m, "tenant", AsString);
    if "sub" !in m || !m["sub"].Str? || email.None? || tenant.None? then None
    else Some(ClaimsSubmission(m["sub"].s, email.value, tenant.value, map k | k in m && k !in RESERVED :: m[k]))
  }

  function ParseUpdatedToken(m: map<string, Json>): (r: Option<UpdatedToken>) {
    var justification := OptionalField(m, "justification", AsString);
    if "resource_token" !in m || !m["resource_token"].Str? || justification.None? then None
    else Some(UpdatedToken(m["resource_token"].s, justification.value))
  }

  /** The first shape that fits, in this order; every object fits the last. */
  function ParsePostObject(m: map<string, Json>): (r: PendingInput)
    ensures !r.Cancelled?
  {
    if "clarification_response" in m && m["clarification_response"].Str? then ClarificationResponse(m["clarification_response"].s)
    else
      match ParseClaimsSubmission(m)
      case Some(claims) => SubmittedClaims(claims)
      case None =>
        match ParseUpdatedToken(m)
        case Some(update) => UpdatedTokenInput(update)
        case None => InteractionCompleted
  }

  datatype PostBody = Blank | Value(json: Json)

  function ParsePost(body: PostBody): (r: Option<PendingInput>) {
    match body
    case Blank => Some(InteractionCompleted)
    case Value(Obj(m)) => Some(ParsePostObject(m))
    case Value(_) => None
  }

  function WithOptional(m: map<string, Json>, key: string, v: Option<string>): (r: map<string, Json>) {
    if v.Some? then m[key := Str(v.value)] else m
  }

  /** What the Person Server posts to the Access Server for an input. */
  function RelayBody(input: PendingInput): (r: map<string, Json>) {
    match input
    case ClarificationResponse(answer) => map["clarification_response" := Str(answer)]
    case SubmittedClaims(c) => WithOptional(WithOptional(c.extra["sub" := Str(c.sub)], "email", c.email), "tenant", c.tenant)
    case UpdatedTokenInput(u) => WithOptional(map["resource_token" := Str(u.resourceToken)], "justification", u.justification)
    case InteractionCompleted => map[]
    case Cancelled => map[]
  }

  /** Inputs that arrive as they were sent. */
  predicate Survives(input: PendingInput) {
    match input
    case SubmittedClaims(c) =>
      && (forall k :: k in c.extra ==> k !in RESERVED)
      && ("clarification_response" in c.extra ==> !c.extra["clarification_response"].Str?)
    case Cancelled => false
    case _ => true
  }

  lemma ClaimsRelay(c: ClaimsSubmission)
    ensures var m := RelayBody(SubmittedClaims(c));
            (forall k :: k in c.extra ==> k !in RESERVED) ==> ParseClaimsSubmission(m) == Some(c)
  {
    var m := RelayBody(SubmittedClaims(c));
    if forall k :: k in c.extra ==> k !in RESERVED {
      assert (map k | k in m && k !in RESERVED :: m[k]) == c.extra;
    }
  }

  /** An input survives being posted exactly when these conditions hold; Cancelled never does. */
  lemma RelayRoundTrip(input: PendingInput)
    ensures ParsePostObject(RelayBody(input)) == input <==> Survives(input)
  {
    match input
    case SubmittedClaims(c) =>
      ClaimsRelay(c);
      var m := RelayBody(input);
      assert "clarification_response" in m <==> "clarification_response" in c.extra;
      assert "clarification_response" in c.extra ==> m["clarification_response"] == c.extra["clarification_response"];
    case _ =>
  }

  /** Whatever object an agent posts, the Access Server understands the relayed input as the Person Server did. */
  lemma RelayPreserves(body: PostBody)
    ensures ParsePost(body).Some? ==> ParsePost(Value(Obj(RelayBody(ParsePost(body).value)))) == ParsePost(body)
  {
    if ParsePost(body).Some? {
      RelayRoundTrip(ParsePost(body).value);
    }
  }

  // ----- the text on the wire -----

  function StatusText(status: PendingStatus): (r: string) {
    if status.Pending? then "pending" else "interacting"
  }

  predicate AreTexts(items: seq<Json>, texts: seq<string>) {
    |items| == |texts| && forall i :: 0 <= i < |items| ==> items[i] == Str(texts[i])
  }

  /** The body of a pending reply. */
  predicate BodySays(body: Json, status: PendingStatus, requirement: Requirement) {
    && body.Obj? && "status" in body.members && body.members["status"] == Str(StatusText(status))
    && match requirement
       case Clarification(question, timeout) =>
         && "clarification" in body.members && body.members["clarification"] == Str(question)
         && (if timeout.Some? then "timeout" in body.members && body.members["timeout"] == Whole(timeout.value) else "timeout" !in body.members)
         && body.members.Keys <= {"status", "clarification", "timeout"}
       case Claims(required) =>
         && body.members.Keys == {"status", "required_claims"} && body.members["required_claims"].Arr?
         && AreTexts(body.members["required_claims"].items, required)
       case Interaction(_, _) => body.members.Keys == {"status"}
       case Approval => body.members.Keys == {"status"}
       case Payment(_) => false
  }

  /** The requirement header of a pending reply. */
  predicate HeaderSays(header: string, requirement: Requirement) {
    match requirement
    case Interaction(url, code) =>
      header == "requirement=" + "interaction" + "; " + ("url" + "=\"" + url + "\"") + "; " + ("code" + "=\"" + code + "\"")
    case Clarification(_, _) => header == "requirement=" + "clarification"
    case Claims(_) => header == "requirement=" + "claims"
    case Approval => header == "requirement=" + "approval"
    case Payment(_) => false
  }

  predicate FieldsSay(fields: HeaderFields, location: Option<string>, requirement: Requirement) {
    && fields.Keys == {"retry-after", "cache-control", "content-type", "aauth-requirement"} + (if location.Some? then {"location"} else {})
    && fields["retry-after"] == "0" && fields["cache-control"] == "no-store" && fields["content-type"] == "application/json"
    && HeaderSays(fields["aauth-requirement"], requirement)
    && (location.Some? ==> fields["location"] == location.value)
  }

  /** What a pending reply says, letter by letter. */
  lemma PendingText(location: string, status: PendingStatus, requirement: Requirement)
    requires !requirement.Payment?
    ensures var p := PrintWaiting(status, requirement);
            p.Printed? ==> p.status == 202 && FieldsSay(p.fields, None, requirement) && BodySays(p.body, status, requirement)
    ensures var p := PrintCreated(location, requirement);
            p.Printed? ==> p.status == 202 && FieldsSay(p.fields, Some(location), requirement) && BodySays(p.body, Pending, requirement)
  {
    HeaderIsText(requirement);
    var fields := PollFields(map[], requirement)["content-type" := "application/json"];
    FieldsAreText(fields, None, requirement);
    FieldsAreText(PollFields(map[LOCATION := location], requirement)["content-type" := "application/json"], Some(location), requirement);
    BodyIsText(status, requirement);
    BodyIsText(Pending, requirement);
  }

  lemma HeaderIsText(requirement: Requirement)
    requires !requirement.Payment?
    ensures HeaderSays(Headers.ToHeader(ChallengeFor(requirement).value), requirement)
  {
    Headers.HeaderText(ChallengeFor(requirement).value);
  }

  lemma FieldsAreText(fields: HeaderFields, location: Option<string>, requirement: Requirement)
    requires !requirement.Payment?
    requires fields == PollFields(if location.Some? then map[LOCATION := location.value] else map[], requirement)["content-type" := "application/json"]
    ensures FieldsSay(fields, location, requirement)
  {
    HeaderIsText(requirement);
  }

  lemma BodyIsText(status: PendingStatus, requirement: Requirement)
    requires !requirement.Payment?
    ensures BodySays(BodyJson(BodyForWaiting(requirement, status).value), status, requirement)
  {
  }

  // ----- exactly what is read -----

  lemma {:induction false} ParseStringsExactly(items: seq<Json>, strings: seq<string>)
    ensures ParseStrings(items) == Some(strings) <==> AreTexts(items, strings)
  {
    if items != [] && strings != [] {
      ParseStringsExactly(items[1..], strings[1..]);
      assert strings == [strings[0]] + strings[1..];
      if items[0] == Str(strings[0]) && AreTexts(items[1..], strings[1..]) {
        forall i | 0 <= i < |items| ensures items[i] == Str(strings[i]) {
          if i > 0 { assert items[1..][i - 1] == Str(strings[1..][i - 1]); }
        }
      }
      if AreTexts(items, strings) {
        assert AreTexts(items[1..], strings[1..]);
      }
    }
  }

  /** A field that may be missing or null, and holds a text otherwise. */
  predicate MayHold(m: map<string, Json>, key: string, text: Option<string>) {
    if text.Some? then key in m && m[key] == Str(text.value) else key !in m || m[key].Null?
  }

  predicate SaysClaims(m: map<string, Json>, c: ClaimsSubmission) {
    && "sub" in m && m["sub"] == Str(c.sub) && MayHold(m, "email", c.email) && MayHold(m, "tenant", c.tenant)
    && c.extra == map k | k in m && k !in {"sub", "email", "tenant"} :: m[k]
  }

  predicate SaysToken(m: map<string, Json>, u: UpdatedToken) {
    "resource_token" in m && m["resource_token"] == Str(u.resourceToken) && MayHold(m, "justification", u.justification)
  }

  predicate SaysClarification(m: map<string, Json>) {
    "clarification_response" in m && m["clarification_response"].Str?
  }

  lemma ClaimsExactly(m: map<string, Json>, c: ClaimsSubmission)
    ensures ParseClaimsSubmission(m) == Some(c) <==> SaysClaims(m, c)
  {
    assert (map k | k in m && k !in RESERVED :: m[k]) == map k | k in m && k !in {"sub", "email", "tenant"} :: m[k];
  }

  lemma TokenExactly(m: map<string, Json>, u: UpdatedToken)
    ensures ParseUpdatedToken(m) == Some(u) <==> SaysToken(m, u)
  {
  }

  /** A posted object is the first of these that it can be: a clarification, claims, an updated token, the end of an interaction. */
  lemma PostExactly(m: map<string, Json>, answer: string, c: ClaimsSubmission, u: UpdatedToken)
    ensures var r := ParsePostObject(m);
            && (r == ClarificationResponse(answer) <==> "clarification_response" in m && m["clarification_response"] == Str(answer))
            && (r == SubmittedClaims(c) <==> !SaysClarification(m) && SaysClaims(m, c))
            && (r == UpdatedTokenInput(u) <==> !SaysClarification(m) && ParseClaimsSubmission(m).None? && SaysToken(m, u))
            && (r == InteractionCompleted <==> !SaysClarification(m) && ParseClaimsSubmission(m).None? && ParseUpdatedToken(m).None?)
    ensures ParsePost(Value(Obj(m))) == Some(ParsePostObject(m)) && ParsePost(Blank) == Some(InteractionCompleted)
  {
    ClaimsExactly(m, c);
    TokenExactly(m, u);
  }

  /** What a reply's challenge and body ask for; a missing body stands for a default. */
  predicate Asks(challenge: Headers.Challenge, body: Option<Json>, requirement: Requirement) {
    match requirement
    case Interaction(url, code) => challenge == Headers.InteractionNeeded(url, code)
    case Approval => challenge == Headers.ApprovalPending
    case Payment(_) => false
    case Clarification(question, timeout) =>
      && challenge == Headers.ClarificationNeeded
      && (match body
          case None => question == "Please clarify your request" && timeout == None
          case Some(json) => AsksClarification(json, question, timeout))
    case Claims(required) =>
      && challenge == Headers.ClaimsNeeded
      && (match body
          case None => required == []
          case Some(json) => AsksClaims(json, required))
  }

  predicate IsStatus(json: Json) { json == Str("pending") || json == Str("interacting") }

  predicate AsksClarification(json: Json, question: string, timeout: Option<U64>) {
    && json.Obj?
    && var m := json.members;
    && ("status" in m ==> IsStatus(m["status"]))
    && "clarification" in m && m["clarification"] == Str(question)
    && (if timeout.Some? then "timeout" in m && m["timeout"] == Whole(timeout.value) else "timeout" !in m || m["timeout"].Null?)
    && ("options" in m && !m["options"].Null? ==> m["options"].Arr? && forall i :: 0 <= i < |m["options"].items| ==> m["options"].items[i].Str?)
  }

  predicate AsksClaims(json: Json, required: seq<string>) {
    && json.Obj?
    && var m := json.members;
    && "status" in m && IsStatus(m["status"]) && "required_claims" in m && m["required_claims"].Arr?
    && AreTexts(m["required_claims"].items, required)
  }

  lemma {:induction false} ParseStringsReads(items: seq<Json>)
    ensures ParseStrings(items).Some? <==> forall i :: 0 <= i < |items| ==> items[i].Str?
  {
    if items != [] {
      ParseStringsReads(items[1..]);
      assert (forall i :: 0 <= i < |items| ==> items[i].Str?) <==> items[0].Str? && forall i :: 0 <= i < |items| - 1 ==> items[1..][i].Str? by {
        if items[0].Str? && forall i :: 0 <= i < |items| - 1 ==> items[1..][i].Str? {
          forall i | 0 <= i < |items| ensures items[i].Str? {
            if i > 0 { assert items[1..][i - 1].Str?; }
          }
        }
      }
    }
  }

  lemma ClarificationExactly(json: Json, question: string, timeout: Option<U64>)
    ensures ParseClarification(json) == Some(Clarification(question, timeout)) <==> AsksClarification(json, question, timeout)
    ensures ParseClarification(json).Some? ==> ParseClarification(json).value.Clarification?
  {
    if json.Obj? && "options" in json.members && json.members["options"].Arr? {
      ParseStringsReads(json.members["options"].items);
    }
  }

  lemma ClaimsBodyExactly(json: Json, required: seq<string>)
    ensures ParseClaims(json) == Some(Claims(required)) <==> AsksClaims(json, required)
    ensures ParseClaims(json).Some? ==> ParseClaims(json).value.Claims?
  {
    if json.Obj? && "required_claims" in json.members && json.members["required_claims"].Arr? {
      ParseStringsExactly(json.members["required_claims"].items, required);
    }
  }

  lemma RequirementExactly(challenge: Headers.Challenge, body: Option<Json>, requirement: Requirement)
    ensures RequirementFrom(challenge, body) == Ok(requirement) <==> Asks(challenge, body, requirement)
  {
    if body.Some? {
      if requirement.Clarification? {
        ClarificationExactly(body.value, requirement.question, requirement.timeout);
      } else if requirement.Claims? {
        ClaimsBodyExactly(body.value, requirement.requiredClaims);
      }
      ClarificationExactly(body.value, "", None);
      ClaimsBodyExactly(body.value, []);
    }
  }

  /** A reply is read as a deferral exactly when it is a 202 with a location and a challenge that can be read, and a body that goes with it. */
  lemma DeferralExactly(status: nat, fields: HeaderFields, body: Option<Json>, join: string -> string, p: ParsedDeferred)
    ensures ParseDeferred(status, fields, body, join) == Ok(p) <==>
              && status == 202
              && "location" in fields && Readable(fields["location"])
              && p.location == (if Absolute(fields["location"]) then fields["location"] else join(fields["location"]))
              && "aauth-requirement" in fields && Readable(fields["aauth-requirement"])
              && Headers.FromHeader(fields["aauth-requirement"]).Ok?
              && Asks(Headers.FromHeader(fields["aauth-requirement"]).value, body, p.requirement)
  {
    if "aauth-requirement" in fields {
      var challenge := Headers.FromHeader(fields["aauth-requirement"]);
      if challenge.Ok? {
        RequirementExactly(challenge.value, body, p.requirement);
      }
    }
  }
}
