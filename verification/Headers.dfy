/** The `AAuth-Requirement`, `AAuth-Mission` and `AAuth-Capabilities` header values. */
module Headers {
  import opened Prelude
  import opened Text

  datatype Challenge =
    | AgentTokenNeeded
    | AuthTokenNeeded(resourceToken: string)
    | ApprovalPending
    | InteractionNeeded(url: string, code: string)
    | ClarificationNeeded
    | ClaimsNeeded

  datatype HeaderError =
    | EmptyRequirement | MissingRequirementMember | UnknownRequirement(text: string)
    | MissingResourceToken | MissingInteractionUrl | MissingInteractionCode
    | MissingApprover | MissingS256

  datatype Level = AgentTokenLevel | AuthTokenLevel | ApprovalLevel | InteractionLevel | ClarificationLevel | ClaimsLevel

  function LevelName(l: Level): (r: string) {
    match l
    case AgentTokenLevel => "agent-token"
    case AuthTokenLevel => "auth-token"
    case ApprovalLevel => "approval"
    case InteractionLevel => "interaction"
    case ClarificationLevel => "clarification"
    case ClaimsLevel => "claims"
  }

  function ParseLevel(s: string): (r: Option<Level>) {
    if s == "agent-token" then Some(AgentTokenLevel)
    else if s == "auth-token" then Some(AuthTokenLevel)
    else if s == "approval" then Some(ApprovalLevel)
    else if s == "interaction" then Some(InteractionLevel)
    else if s == "clarification" then Some(ClarificationLevel)
    else if s == "claims" then Some(ClaimsLevel)
    else None
  }

  function LevelOf(c: Challenge): (r: Level) {
    match c
    case AgentTokenNeeded => AgentTokenLevel
    case AuthTokenNeeded(_) => AuthTokenLevel
    case ApprovalPending => ApprovalLevel
    case InteractionNeeded(_, _) => InteractionLevel
    case ClarificationNeeded => ClarificationLevel
    case ClaimsNeeded => ClaimsLevel
  }

  function Quoted(key: string, v: string): (r: string) {
    key + "=\"" + v + "\""
  }

  function ToHeader(c: Challenge): (r: string) {
    var level := "requirement=" + LevelName(LevelOf(c));
    match c
    case AuthTokenNeeded(token) => level + "; " + Quoted("resource-token", token)
    case InteractionNeeded(url, code) => level + "; " + Quoted("url", url) + "; " + Quoted("code", code)
    case _ => level
  }

  function Pattern(key: string): (r: string) { key + "=\"" }

  /** The text between the first `key="` and the next quote. */
  function ExtractQuotedParam(input: string, key: string): (r: Option<string>) {
    var pattern := Pattern(key);
    match Find(input, pattern)
    case None => None
    case Some(i) =>
      var rest := input[i + |pattern|..];
      if '"' in rest then Some(Before(rest, '"')) else None
  }

  function FromHeader(value: string): (r: Result<Challenge, HeaderError>) {
    var trimmed := Trim(value);
    if trimmed == "" then Err(EmptyRequirement)
    else if !("requirement=" <= trimmed) then Err(MissingRequirementMember)
    else
      var name := Trim(Before(trimmed[|"requirement="|..], ';'));
      match ParseLevel(name)
      case None => Err(UnknownRequirement(name))
      case Some(level) => FromLevel(level, trimmed)
  }

  function FromLevel(level: Level, trimmed: string): (r: Result<Challenge, HeaderError>) {
    match level
    case AgentTokenLevel => Ok(AgentTokenNeeded)
    case ApprovalLevel => Ok(ApprovalPending)
    case ClarificationLevel => Ok(ClarificationNeeded)
    case ClaimsLevel => Ok(ClaimsNeeded)
    case AuthTokenLevel =>
      (match ExtractQuotedParam(trimmed, "resource-token")
       case None => Err(MissingResourceToken)
       case Some(token) => Ok(AuthTokenNeeded(token)))
    case InteractionLevel =>
      match ExtractQuotedParam(trimmed, "url")
      case None => Err(MissingInteractionUrl)
      case Some(url) =>
        match ExtractQuotedParam(trimmed, "code")
        case None => Err(MissingInteractionCode)
        case Some(code) => Ok(InteractionNeeded(url, code))
  }

  datatype Mission = Mission(approver: string, s256: string)

  function MissionToHeader(m: Mission): (r: string) {
    Quoted("approver", m.approver) + "; " + Quoted("s256", m.s256)
  }

  function MissionFromHeader(value: string): (r: Result<Mission, HeaderError>) {
    match ExtractQuotedParam(value, "approver")
    case None => Err(MissingApprover)
    case Some(approver) =>
      match ExtractQuotedParam(value, "s256")
      case None => Err(MissingS256)
      case Some(s256) => Ok(Mission(approver, s256))
  }

  datatype Capability = InteractionCapability | ClarificationCapability | PaymentCapability

  function CapabilityName(c: Capability): (r: string) {
    match c
    case InteractionCapability => "interaction"
    case ClarificationCapability => "clarification"
    case PaymentCapability => "payment"
  }

  function ParseCapability(s: string): (r: Option<Capability>) {
    if s == "interaction" then Some(InteractionCapability)
    else if s == "clarification" then Some(ClarificationCapability)
    else if s == "payment" then Some(PaymentCapability)
    else None
  }

  function Names(caps: seq<Capability>): (r: seq<string>)
    ensures |r| == |caps|
  {
    if caps == [] then [] else [CapabilityName(caps[0])] + Names(caps[1..])
  }

  function JoinCapabilities(caps: seq<Capability>): (r: string) {
    Join(Names(caps), ", ")
  }

  function Recognized(pieces: seq<string>): (r: seq<Capability>) {
    if pieces == [] then []
    else
      match ParseCapability(Trim(pieces[0]))
      case None => Recognized(pieces[1..])
      case Some(c) => [c] + Recognized(pieces[1..])
  }

  function ParseCapabilities(value: string): (r: seq<Capability>) {
    Recognized(Split(value, ','))
  }

  // ----- quoted parameters -----

  predicate NoQuote(s: string) { '"' !in s }

  lemma Concat(a: string, b: string)
    ensures NoQuote(a + b) <==> NoQuote(a) && NoQuote(b)
  {
    assert forall c :: c in a + b <==> c in a || c in b;
  }

  lemma FindIs(s: string, p: string, i: nat)
    requires OccursAt(s, p, i)
    requires forall j: nat :: j < i ==> !OccursAt(s, p, j)
    ensures Find(s, p) == Some(i)
  {
  }

  /** Text without quotes in front of a pattern that ends in one cannot hold an earlier match. */
  lemma FirstMatch(a: string, key: string, rest: string)
    requires NoQuote(a) && NoQuote(key)
    ensures Find(a + Pattern(key) + rest, Pattern(key)) == Some(|a|)
  {
    var p := Pattern(key);
    var s := a + p + rest;
    forall j: nat | j < |a| ensures !OccursAt(s, p, j) {
      var q := j + |p| - 1;
      assert s[q] == (a + key + "=")[q] != '"' by {
        if q < |a| { assert (a + key + "=")[q] == a[q]; }
        else if q < |a| + |key| { assert (a + key + "=")[q] == key[q - |a|]; }
      }
      assert p[|p| - 1] == '"';
      if j + |p| <= |s| { assert s[j..j + |p|][|p| - 1] == s[q]; }
    }
    assert s[|a|..|a| + |p|] == p;
    FindIs(s, p, |a|);
  }

  lemma FirstParam(a: string, key: string, rest: string)
    requires NoQuote(a) && NoQuote(key)
    ensures ExtractQuotedParam(a + Pattern(key) + rest, key) == if '"' in rest then Some(Before(rest, '"')) else None
  {
    FirstMatch(a, key, rest);
    assert (a + Pattern(key) + rest)[|a| + |Pattern(key)|..] == rest;
  }

  lemma BeforeQuote(v: string, rest: string)
    requires rest != "" && rest[0] == '"'
    ensures Before(v + rest, '"') == Before(v, '"')
  {
    if NoQuote(v) {
      BeforePrefix(v, rest, '"');
      BeforePrefix(v, "", '"');
      assert v + "" == v;
    } else {
      var i := IndexOf(v, '"').value;
      var tail := v[i..];
      assert v == v[..i] + tail && v + rest == v[..i] + (tail + rest);
      BeforePrefix(v[..i], tail, '"');
      BeforePrefix(v[..i], tail + rest, '"');
    }
  }

  /** The shape both two-parameter headers have. */
  function TwoParams(pre: string, k1: string, v1: string, k2: string, v2: string): (r: string) {
    pre + Quoted(k1, v1) + "; " + Quoted(k2, v2)
  }

  predicate Keys(pre: string, k1: string, k2: string) {
    NoQuote(pre) && NoQuote(k1) && NoQuote(k2) && k2 != "" && !EndsWith(pre + k1, k2)
  }

  lemma GroupFirst(pre: string, k1: string, v1: string, k2: string, v2: string)
    ensures TwoParams(pre, k1, v1, k2, v2) == pre + Pattern(k1) + (v1 + ("\"; " + Quoted(k2, v2)))
  {
  }

  lemma FirstOfTwo(pre: string, k1: string, v1: string, k2: string, v2: string)
    requires NoQuote(pre) && NoQuote(k1)
    ensures ExtractQuotedParam(TwoParams(pre, k1, v1, k2, v2), k1) == Some(Before(v1, '"'))
  {
    var tail := "\"; " + Quoted(k2, v2);
    GroupFirst(pre, k1, v1, k2, v2);
    FirstParam(pre, k1, v1 + tail);
    assert (v1 + tail)[|v1|] == '"';
    BeforeQuote(v1, tail);
  }

  lemma OnlyTwoQuotes(a: string, v1: string, b: string, q: nat)
    requires NoQuote(a) && NoQuote(v1) && NoQuote(b)
    requires q < |a| + 1 + |v1| + 1 + |b| && q != |a| && q != |a| + 1 + |v1|
    ensures (a + "\"" + v1 + "\"" + b)[q] != '"'
  {
    var s := a + "\"" + v1 + "\"" + b;
    if q < |a| {
      assert s[q] == a[q];
    } else if q < |a| + 1 + |v1| {
      assert s[q] == v1[q - |a| - 1];
    } else {
      assert s[q] == b[q - |a| - 1 - |v1| - 1];
    }
  }

  /** A match ends at a quote, and the first three quotes are at known places. */
  lemma QuoteBefore(a: string, v1: string, b: string, t: string, q: nat, p: string, j: nat)
    requires NoQuote(a) && NoQuote(v1) && NoQuote(b)
    requires a + "\"" + v1 + "\"" + b <= t
    requires q < |a| + 1 + |v1| + 1 + |b|
    requires p != "" && p[|p| - 1] == '"' && OccursAt(t, p, j) && q == j + |p| - 1
    ensures q == |a| || q == |a| + 1 + |v1|
  {
    assert t[j..j + |p|][|p| - 1] == t[q];
    if q != |a| && q != |a| + 1 + |v1| {
      OnlyTwoQuotes(a, v1, b, q);
    }
  }

  lemma NotAtTheFirstKey(pre: string, k1: string, k2: string, t: string, j: nat)
    requires Keys(pre, k1, k2) && Quoted(pre + k1, "")[..|pre + k1| + 2] <= t
    requires j + |k2| == |pre + k1|
    ensures !OccursAt(t, k2 + "=\"", j)
  {
    var p := k2 + "=\"";
    if j + |p| <= |t| {
      assert (pre + k1)[j..] == t[j..j + |p|][..|k2|];
      assert p[..|k2|] == k2;
    }
  }

  lemma NotAcross(t: string, p: string, j: nat, x: nat)
    requires j <= x < j + |p| - 1 && x < |t| && t[x] == '"' && NoQuote(p[..|p| - 1])
    ensures !OccursAt(t, p, j)
  {
    assert p[x - j] == p[..|p| - 1][x - j];
    if j + |p| <= |t| {
      assert t[j..j + |p|][x - j] == t[x];
    }
  }

  lemma EndsAtFirst(pre: string, k1: string, k2: string, v1: string, t: string, j: nat)
    requires Keys(pre, k1, k2) && NoQuote(v1)
    requires pre + Quoted(k1, v1) <= t
    requires OccursAt(t, k2 + "=\"", j)
    requires var q := j + |k2| + 1; q == |pre + k1 + "="| || q == |pre + k1 + "="| + 1 + |v1|
    ensures j + |k2| + 1 == |pre + k1 + "="| + 1 + |v1| && EndsWith(v1, k2 + "=")
  {
    var a := pre + k1 + "=";
    var s := a + "\"" + v1 + "\"";
    var p := k2 + "=\"";
    assert s == pre + Quoted(k1, v1) && t[..|s|] == s;
    if j + |k2| + 1 == |a| {
      assert Quoted(pre + k1, "")[..|pre + k1| + 2] == a + "\"" == t[..|a| + 1];
      NotAtTheFirstKey(pre, k1, k2, t, j);
    } else {
      assert p[..|p| - 1] == k2 + "=";
      if j <= |a| {
        NotAcross(t, p, j, |a|);
      }
      assert v1[|v1| - |k2| - 1..] == t[j..j + |p|][..|k2| + 1];
    }
  }

  lemma GroupThree(pre: string, k1: string, v1: string, k2: string, v2: string)
    ensures var t := TwoParams(pre, k1, v1, k2, v2);
            && (pre + k1 + "=") + "\"" + v1 + "\"" + ("; " + k2 + "=") <= t
            && pre + Quoted(k1, v1) <= t
            && t == pre + Quoted(k1, v1) + "; " + Pattern(k2) + (v2 + "\"")
            && t == pre + Quoted(k1, v1) + ("; " + k2 + "=") + ("\"" + v2 + "\"")
  {
  }

  /** The only match of the second key before its own place sits at the end of the first value. */
  lemma EarlierMatch(pre: string, k1: string, v1: string, k2: string, v2: string, j: nat)
    requires Keys(pre, k1, k2) && NoQuote(v1)
    requires OccursAt(TwoParams(pre, k1, v1, k2, v2), Pattern(k2), j)
    requires j < |pre + Quoted(k1, v1) + "; "|
    ensures j + |Pattern(k2)| == |pre + Quoted(k1, v1)| && EndsWith(v1, k2 + "=")
  {
    GroupThree(pre, k1, v1, k2, v2);
    var t := TwoParams(pre, k1, v1, k2, v2);
    assert NoQuote(pre + k1 + "=") && NoQuote("; " + k2 + "=") by {
      Concat(pre, k1);
      Concat(pre + k1, "=");
      Concat("; ", k2);
      Concat("; " + k2, "=");
    }
    QuoteBefore(pre + k1 + "=", v1, "; " + k2 + "=", t, j + |k2| + 1, Pattern(k2), j);
    EndsAtFirst(pre, k1, k2, v1, t, j);
  }

  lemma InPlace(pre: string, k1: string, v1: string, k2: string, v2: string)
    requires Keys(pre, k1, k2) && NoQuote(v1) && !EndsWith(v1, k2 + "=")
    ensures ExtractQuotedParam(TwoParams(pre, k1, v1, k2, v2), k2) == Some(Before(v2, '"'))
  {
    var t, p := TwoParams(pre, k1, v1, k2, v2), Pattern(k2);
    var i := |pre + Quoted(k1, v1) + "; "|;
    GroupThree(pre, k1, v1, k2, v2);
    forall j: nat | j < i ensures !OccursAt(t, p, j) {
      if OccursAt(t, p, j) { EarlierMatch(pre, k1, v1, k2, v2, j); }
    }
    assert t[i..i + |p|] == p;
    FindIs(t, p, i);
    assert t[i + |p|..] == v2 + "\"";
    assert (v2 + "\"")[|v2|] == '"';
    BeforeQuote(v2, "\"");
  }

  lemma EndOf(s: string, v1: string, tail: string, p: string, t: string)
    requires |p| > |tail| && |p| <= |v1| + |tail| && |v1| + |tail| <= |s|
    requires s[|s| - |v1| - |tail|..] == v1 + tail && s <= t
    requires v1[|v1| + |tail| - |p|..] + tail == p
    ensures OccursAt(t, p, |s| - |p|)
  {
    var i := |s| - |p|;
    assert s[i..] == (v1 + tail)[|v1| + |tail| - |p|..] == p;
    assert t[i..i + |p|] == s[i..];
  }

  lemma QuotedEnd(pre: string, k1: string, v1: string)
    ensures var s := pre + Quoted(k1, v1);
            |v1| + 1 <= |s| && s[|s| - |v1| - 1..] == v1 + "\""
  {
    assert pre + Quoted(k1, v1) == (pre + k1 + "=\"") + (v1 + "\"");
  }

  lemma SwallowedMatch(pre: string, k1: string, v1: string, k2: string, v2: string)
    requires Keys(pre, k1, k2) && NoQuote(v1) && EndsWith(v1, k2 + "=")
    ensures Find(TwoParams(pre, k1, v1, k2, v2), Pattern(k2)) == Some(|pre + Quoted(k1, v1)| - |Pattern(k2)|)
  {
    var t, p := TwoParams(pre, k1, v1, k2, v2), Pattern(k2);
    var s := pre + Quoted(k1, v1);
    var i := |s| - |p|;
    GroupThree(pre, k1, v1, k2, v2);
    forall j: nat | j < i ensures !OccursAt(t, p, j) {
      if OccursAt(t, p, j) { EarlierMatch(pre, k1, v1, k2, v2, j); }
    }
    QuotedEnd(pre, k1, v1);
    assert v1[|v1| + 1 - |p|..] + "\"" == p by { assert p == (k2 + "=") + "\""; }
    EndOf(s, v1, "\"", p, t);
    FindIs(t, p, i);
  }

  lemma UpToQuote(t: string, key: string, n: nat, b: string, rest: string)
    requires n <= |t| && t[n..] == b + "\"" + rest && NoQuote(b)
    requires Find(t, Pattern(key)) == Some(n - |Pattern(key)|)
    ensures ExtractQuotedParam(t, key) == Some(b)
  {
    assert t[n..] == b + ("\"" + rest);
    BeforePrefix(b, "\"" + rest, '"');
    assert t[n..][|b|] == '"';
  }

  lemma GroupLast(pre: string, k1: string, v1: string, k2: string, v2: string)
    ensures TwoParams(pre, k1, v1, k2, v2)[|pre + Quoted(k1, v1)|..] == ("; " + k2 + "=") + "\"" + (v2 + "\"")
  {
    GroupThree(pre, k1, v1, k2, v2);
    var a, b := pre + Quoted(k1, v1), ("; " + k2 + "=") + ("\"" + v2 + "\"");
    assert TwoParams(pre, k1, v1, k2, v2) == a + b;
  }

  lemma Swallowed(pre: string, k1: string, v1: string, k2: string, v2: string)
    requires Keys(pre, k1, k2) && NoQuote(v1) && EndsWith(v1, k2 + "=")
    ensures ExtractQuotedParam(TwoParams(pre, k1, v1, k2, v2), k2) == Some("; " + k2 + "=")
  {
    SwallowedMatch(pre, k1, v1, k2, v2);
    GroupLast(pre, k1, v1, k2, v2);
    Concat("; ", k2);
    Concat("; " + k2, "=");
    UpToQuote(TwoParams(pre, k1, v1, k2, v2), k2, |pre + Quoted(k1, v1)|, "; " + k2 + "=", v2 + "\"");
  }

  /** The second parameter is found in place, unless the first value ends in its key. */
  lemma SecondOfTwo(pre: string, k1: string, v1: string, k2: string, v2: string)
    requires Keys(pre, k1, k2) && NoQuote(v1)
    ensures ExtractQuotedParam(TwoParams(pre, k1, v1, k2, v2), k2)
            == Some(if EndsWith(v1, k2 + "=") then "; " + k2 + "=" else Before(v2, '"'))
  {
    if EndsWith(v1, k2 + "=") { Swallowed(pre, k1, v1, k2, v2); } else { InPlace(pre, k1, v1, k2, v2); }
  }

  lemma BeforeIsAll(v: string)
    ensures Before(v, '"') == v <==> NoQuote(v)
  {
    if NoQuote(v) {
      BeforePrefix(v, "", '"');
      assert v + "" == v;
    }
  }

  /** Exactly which pairs of values a two-parameter header gives back. */
  lemma TwoParamsRoundTrip(pre: string, k1: string, v1: string, k2: string, v2: string)
    requires Keys(pre, k1, k2)
    ensures var t := TwoParams(pre, k1, v1, k2, v2);
            (ExtractQuotedParam(t, k1) == Some(v1) && ExtractQuotedParam(t, k2) == Some(v2))
            <==> NoQuote(v1) && NoQuote(v2) && (EndsWith(v1, k2 + "=") ==> v2 == "; " + k2 + "=")
  {
    FirstOfTwo(pre, k1, v1, k2, v2);
    BeforeIsAll(v1);
    BeforeIsAll(v2);
    if NoQuote(v1) {
      SecondOfTwo(pre, k1, v1, k2, v2);
    }
  }

  // ----- round trips -----

  /** The values a challenge header can carry. */
  predicate Carriable(c: Challenge) {
    match c
    case AuthTokenNeeded(token) => NoQuote(token)
    case InteractionNeeded(url, code) =>
      NoQuote(url) && NoQuote(code) && (EndsWith(url, "code=") ==> code == "; code=")
    case _ => true
  }

  /** Lower-case letters and hyphens. */
  predicate PlainName(s: string) {
    s != "" && forall i :: 0 <= i < |s| ==> 'a' <= s[i] <= 'z' || s[i] == '-'
  }

  lemma LevelNames(l: Level)
    ensures PlainName(LevelName(l)) && ParseLevel(LevelName(l)) == Some(l)
  {
  }

  lemma PlainHasNone(s: string, c: char)
    requires PlainName(s) && !('a' <= c <= 'z') && c != '-'
    ensures c !in s
  {
  }

  lemma HeaderTrims(level: string, rest: string)
    requires PlainName(level) && (rest == "" || !IsSpace(rest[|rest| - 1]))
    ensures var h := "requirement=" + level + rest; Trim(h) == h && h != "" && "requirement=" <= h
  {
    var h := "requirement=" + level + rest;
    assert h[0] == 'r';
    assert h[|h| - 1] == if rest == "" then level[|level| - 1] else rest[|rest| - 1];
  }

  lemma LevelBefore(level: string, rest: string)
    requires PlainName(level) && (rest == "" || rest[0] == ';')
    ensures Trim(Before(level + rest, ';')) == level
  {
    PlainHasNone(level, ';');
    BeforePrefix(level, rest, ';');
  }

  lemma DropFirst(a: string, b: string, c: string)
    ensures (a + b + c)[|a|..] == b + c
  {
  }

  lemma LevelParsed(level: string, rest: string)
    requires PlainName(level)
    requires rest == "" || (rest[0] == ';' && !IsSpace(rest[|rest| - 1]))
    ensures var h := "requirement=" + level + rest;
            && Trim(h) == h && h != "" && "requirement=" <= h
            && Trim(Before(h[|"requirement="|..], ';')) == level
  {
    HeaderTrims(level, rest);
    LevelBefore(level, rest);
    DropFirst("requirement=", level, rest);
  }

  /** What follows the level in a printed challenge. */
  function Params(c: Challenge): (r: string) {
    match c
    case AuthTokenNeeded(token) => "; " + Quoted("resource-token", token)
    case InteractionNeeded(url, code) => "; " + Quoted("url", url) + "; " + Quoted("code", code)
    case _ => ""
  }

  lemma HeaderShape(c: Challenge)
    ensures ToHeader(c) == "requirement=" + LevelName(LevelOf(c)) + Params(c)
    ensures Params(c) == "" || (Params(c)[0] == ';' && Params(c)[|Params(c)| - 1] == '"')
  {
    var level := "requirement=" + LevelName(LevelOf(c));
    match c
    case AuthTokenNeeded(token) =>
      var last := Quoted("resource-token", token);
      EndsInQuote("; ", "resource-token", token);
      Assoc(level, "; ", last);
    case InteractionNeeded(url, code) =>
      var first, last := "; " + Quoted("url", url), Quoted("code", code);
      EndsInQuote(first + "; ", "code", code);
      Assoc(level, "; ", Quoted("url", url));
      Assoc(level, first, "; ");
      Assoc(level, first + "; ", last);
      assert first[0] == ';' && (first + "; " + last)[0] == ';';
    case _ => assert level + "" == level;
  }

  lemma Assoc(a: string, b: string, c: string)
    ensures a + b + c == a + (b + c)
  {
  }

  lemma EndsInQuote(a: string, key: string, v: string)
    ensures var s := a + Quoted(key, v); s != "" && s[|s| - 1] == '"'
  {
  }

  lemma FromHeaderAt(h: string, name: string, level: Level)
    requires Trim(h) == h && h != "" && "requirement=" <= h
    requires Trim(Before(h[|"requirement="|..], ';')) == name && ParseLevel(name) == Some(level)
    ensures FromHeader(h) == FromLevel(level, h)
  {
  }

  /** Parsing a printed challenge comes down to extracting its parameters. */
  lemma ParsesAtItsLevel(c: Challenge)
    ensures FromHeader(ToHeader(c)) == FromLevel(LevelOf(c), ToHeader(c))
  {
    var name := LevelName(LevelOf(c));
    LevelNames(LevelOf(c));
    HeaderShape(c);
    LevelParsed(name, Params(c));
    FromHeaderAt("requirement=" + name + Params(c), name, LevelOf(c));
  }

  lemma LevelHasNoQuote(l: Level)
    ensures NoQuote("requirement=" + LevelName(l) + "; ")
  {
    LevelNames(l);
    PlainHasNone(LevelName(l), '"');
    Concat("requirement=", LevelName(l));
    Concat("requirement=" + LevelName(l), "; ");
  }

  lemma LastParam(a: string, key: string, v: string)
    requires NoQuote(a) && NoQuote(key)
    ensures ExtractQuotedParam(a + Quoted(key, v), key) == Some(Before(v, '"'))
  {
    assert a + Quoted(key, v) == a + Pattern(key) + (v + "\"");
    FirstParam(a, key, v + "\"");
    assert (v + "\"")[|v|] == '"';
    BeforeQuote(v, "\"");
  }

  lemma AuthTokenTrip(token: string)
    ensures FromLevel(AuthTokenLevel, ToHeader(AuthTokenNeeded(token))) == Ok(AuthTokenNeeded(Before(token, '"')))
  {
    LevelHasNoQuote(AuthTokenLevel);
    LastParam("requirement=" + LevelName(AuthTokenLevel) + "; ", "resource-token", token);
  }

  lemma DifferentEnds(pre: string, k1: string, k2: string)
    requires k1 != "" && k2 != "" && k1[|k1| - 1] != k2[|k2| - 1]
    ensures !EndsWith(pre + k1, k2)
  {
    var a := pre + k1;
    assert a[|a| - 1] == k1[|k1| - 1];
    if |k2| <= |a| { assert a[|a| - |k2|..][|k2| - 1] == a[|a| - 1]; }
  }

  lemma InteractionKeys()
    ensures Keys("requirement=" + LevelName(InteractionLevel) + "; ", "url", "code")
  {
    var pre := "requirement=" + LevelName(InteractionLevel) + "; ";
    LevelHasNoQuote(InteractionLevel);
    DifferentEnds(pre, "url", "code");
  }

  /** Everything the two extractions of a printed pair can give. */
  lemma TwoParamsRead(pre: string, k1: string, v1: string, k2: string, v2: string)
    requires Keys(pre, k1, k2)
    ensures var t := TwoParams(pre, k1, v1, k2, v2);
            if NoQuote(v1) then
              && ExtractQuotedParam(t, k1) == Some(v1)
              && ExtractQuotedParam(t, k2) == Some(if EndsWith(v1, k2 + "=") then "; " + k2 + "=" else Before(v2, '"'))
            else ExtractQuotedParam(t, k1) != Some(v1)
  {
    FirstOfTwo(pre, k1, v1, k2, v2);
    BeforeIsAll(v1);
    if NoQuote(v1) { SecondOfTwo(pre, k1, v1, k2, v2); }
  }

  lemma CodeKey()
    ensures "code" + "=" == "code=" && "; " + "code" + "=" == "; code="
  {
  }

  /** What the two extractions find in a printed interaction challenge. */
  lemma InteractionRead(url: string, code: string)
    ensures var h := ToHeader(InteractionNeeded(url, code));
            if NoQuote(url) then
              && ExtractQuotedParam(h, "url") == Some(url)
              && ExtractQuotedParam(h, "code") == Some(if EndsWith(url, "code=") then "; code=" else Before(code, '"'))
            else ExtractQuotedParam(h, "url") != Some(url)
  {
    InteractionKeys();
    TwoParamsRead("requirement=" + LevelName(InteractionLevel) + "; ", "url", url, "code", code);
    CodeKey();
  }

  lemma FromInteractionLevel(h: string, url: string, code: string)
    requires ExtractQuotedParam(h, "url") == Some(url) && ExtractQuotedParam(h, "code") == Some(code)
    ensures FromLevel(InteractionLevel, h) == Ok(InteractionNeeded(url, code))
  {
  }

  lemma FromInteractionLevelOther(h: string, url: string, code: string)
    requires ExtractQuotedParam(h, "url") != Some(url)
    ensures FromLevel(InteractionLevel, h) != Ok(InteractionNeeded(url, code))
  {
  }

  /** What the parser reads from a printed interaction challenge. */
  lemma InteractionTrip(url: string, code: string)
    ensures var back := FromLevel(InteractionLevel, ToHeader(InteractionNeeded(url, code)));
            if NoQuote(url) then back == Ok(InteractionNeeded(url, if EndsWith(url, "code=") then "; code=" else Before(code, '"')))
            else back != Ok(InteractionNeeded(url, code))
  {
    InteractionRead(url, code);
    var h := ToHeader(InteractionNeeded(url, code));
    if NoQuote(url) {
      FromInteractionLevel(h, url, if EndsWith(url, "code=") then "; code=" else Before(code, '"'));
    } else {
      FromInteractionLevelOther(h, url, code);
    }
  }

  lemma InteractionRoundTrip(url: string, code: string)
    ensures FromLevel(InteractionLevel, ToHeader(InteractionNeeded(url, code))) == Ok(InteractionNeeded(url, code))
            <==> Carriable(InteractionNeeded(url, code))
  {
    InteractionTrip(url, code);
    BeforeIsAll(code);
  }

  lemma LevelRoundTrip(c: Challenge)
    ensures FromLevel(LevelOf(c), ToHeader(c)) == Ok(c) <==> Carriable(c)
  {
    if c.AuthTokenNeeded? {
      AuthTokenTrip(c.resourceToken);
      BeforeIsAll(c.resourceToken);
    } else if c.InteractionNeeded? {
      InteractionRoundTrip(c.url, c.code);
    }
  }

  /** Parsing undoes printing for exactly the carriable challenges. */
  lemma ChallengeRoundTrip(c: Challenge)
    ensures FromHeader(ToHeader(c)) == Ok(c) <==> Carriable(c)
  {
    ParsesAtItsLevel(c);
    LevelRoundTrip(c);
  }

  lemma MissionKeys()
    ensures Keys("", "approver", "s256")
    ensures "s256" + "=" == "s256=" && "; " + "s256" + "=" == "; s256="
  {
    DifferentEnds("", "approver", "s256");
  }

  lemma MissionText(m: Mission)
    ensures MissionToHeader(m) == TwoParams("", "approver", m.approver, "s256", m.s256)
  {
    assert "" + Quoted("approver", m.approver) == Quoted("approver", m.approver);
  }

  lemma MissionRoundTrip(m: Mission)
    ensures MissionFromHeader(MissionToHeader(m)) == Ok(m)
            <==> NoQuote(m.approver) && NoQuote(m.s256) && (EndsWith(m.approver, "s256=") ==> m.s256 == "; s256=")
  {
    MissionText(m);
    MissionKeys();
    TwoParamsRoundTrip("", "approver", m.approver, "s256", m.s256);
  }

  // ----- capability lists -----

  lemma TrimOneSpace(name: string)
    requires name != "" && !IsSpace(name[0]) && !IsSpace(name[|name| - 1])
    ensures Trim(" " + name) == name
  {
    assert (" " + name)[1..] == name;
    assert TrimStart(" " + name) == TrimStart(name);
  }

  lemma TrimLead(name: string, lead: string)
    requires PlainName(name) && (lead == "" || lead == " ")
    ensures ',' !in lead + name && Trim(lead + name) == name
  {
    PlainHasNone(name, ',');
    if lead == " " {
      TrimOneSpace(name);
    } else {
      assert lead + name == name;
    }
  }

  lemma NameIsPlain(c: Capability)
    ensures PlainName(CapabilityName(c)) && ParseCapability(CapabilityName(c)) == Some(c)
  {
  }

  /** The pieces a list of names joined with `, ` splits into. */
  function Spaced(names: seq<string>, lead: string): (r: seq<string>)
    ensures |r| == |names|
    ensures forall i :: 0 <= i < |r| ==> r[i] == (if i == 0 then lead else " ") + names[i]
  {
    seq(|names|, i requires 0 <= i < |names| => (if i == 0 then lead else " ") + names[i])
  }

  lemma SpacedCons(names: seq<string>, lead: string)
    requires |names| > 1
    ensures Spaced(names, lead) == [lead + names[0]] + Spaced(names[1..], " ")
  {
  }

  lemma JoinStep(names: seq<string>, lead: string)
    requires |names| > 1
    ensures lead + Join(names, ", ") == (lead + names[0]) + "," + (" " + Join(names[1..], ", "))
  {
    JoinCons(names, ", ");
    Regrouped(lead, names[0], Join(names[1..], ", "));
  }

  lemma Regrouped(lead: string, name: string, rest: string)
    ensures lead + (name + ", " + rest) == (lead + name) + "," + (" " + rest)
  {
  }

  lemma {:induction false} SplitSpaced(names: seq<string>, lead: string)
    requires names != [] && ',' !in lead && forall i :: 0 <= i < |names| ==> ',' !in names[i]
    ensures Split(lead + Join(names, ", "), ',') == Spaced(names, lead)
  {
    if |names| == 1 {
      SplitOne(lead + names[0], ',');
      assert Spaced(names, lead) == [lead + names[0]];
    } else {
      JoinStep(names, lead);
      SplitPrefix(lead + names[0], ',', " " + Join(names[1..], ", "));
      SplitSpaced(names[1..], " ");
      SpacedCons(names, lead);
    }
  }

  lemma {:induction false} RecognizesNames(pieces: seq<string>, caps: seq<Capability>)
    requires |pieces| == |caps| && forall i :: 0 <= i < |caps| ==> Trim(pieces[i]) == CapabilityName(caps[i])
    ensures Recognized(pieces) == caps
  {
    if caps != [] {
      NameIsPlain(caps[0]);
      RecognizesNames(pieces[1..], caps[1..]);
    }
  }

  lemma {:induction false} NameAt(caps: seq<Capability>, i: nat)
    requires i < |caps|
    ensures Names(caps)[i] == CapabilityName(caps[i])
  {
    if i > 0 { NameAt(caps[1..], i - 1); }
  }

  /** Capability lists of any length, the empty one included. */
  lemma CapabilitiesRoundTrip(caps: seq<Capability>)
    ensures ParseCapabilities(JoinCapabilities(caps)) == caps
  {
    var names := Names(caps);
    forall i | 0 <= i < |caps| ensures ',' !in names[i] && Trim((if i == 0 then "" else " ") + names[i]) == CapabilityName(caps[i]) {
      NameAt(caps, i);
      NameIsPlain(caps[i]);
      TrimLead(names[i], if i == 0 then "" else " ");
      assert "" + names[i] == names[i];
    }
    if caps == [] {
      SplitOne("", ',');
      assert Recognized([""]) == [];
    } else {
      SplitSpaced(names, "");
      assert "" + Join(names, ", ") == Join(names, ", ");
      RecognizesNames(Spaced(names, ""), caps);
    }
  }

  // ----- the text itself -----

  /** What a challenge says, letter by letter. */
  lemma HeaderText(c: Challenge)
    ensures ToHeader(c)
            == match c
               case AgentTokenNeeded => "requirement=" + "agent-token"
               case AuthTokenNeeded(token) => "requirement=" + "auth-token" + "; " + ("resource-token" + "=\"" + token + "\"")
               case ApprovalPending => "requirement=" + "approval"
               case InteractionNeeded(url, code) =>
                 "requirement=" + "interaction" + "; " + ("url" + "=\"" + url + "\"") + "; " + ("code" + "=\"" + code + "\"")
               case ClarificationNeeded => "requirement=" + "clarification"
               case ClaimsNeeded => "requirement=" + "claims"
  {
  }

  /** A challenge from elsewhere may hold other text without quotes before the token, and anything after its closing quote. */
  lemma ForeignChallenge(before: string, token: string, after: string)
    requires NoQuote(before) && NoQuote(token) && after != "" && after[0] == '"' && !IsSpace(after[|after| - 1])
    ensures FromHeader("requirement=" + LevelName(AuthTokenLevel) + ((";" + before) + Pattern("resource-token") + (token + after)))
            == Ok(AuthTokenNeeded(token))
  {
    var name, lead, rest := LevelName(AuthTokenLevel), ";" + before, token + after;
    LevelNames(AuthTokenLevel);
    PlainHasNone(name, '"');
    Concat("requirement=", name);
    Concat(";", before);
    PlainHasNone("resource-token", '"');
    ForeignRead(name, AuthTokenLevel, lead, "resource-token", token, after);
  }

  lemma ForeignRead(name: string, level: Level, lead: string, key: string, v: string, after: string)
    requires PlainName(name) && ParseLevel(name) == Some(level) && NoQuote("requirement=" + name)
    requires lead != "" && lead[0] == ';' && NoQuote(lead) && NoQuote(key) && NoQuote(v)
    requires after != "" && after[0] == '"' && !IsSpace(after[|after| - 1])
    ensures var h := "requirement=" + name + (lead + Pattern(key) + (v + after));
            FromHeader(h) == FromLevel(level, h) && ExtractQuotedParam(h, key) == Some(v)
  {
    var params := lead + Pattern(key) + (v + after);
    assert params[0] == ';' && params[|params| - 1] == after[|after| - 1];
    LevelParsed(name, params);
    FromHeaderAt("requirement=" + name + params, name, level);
    Regroup("requirement=" + name, lead, Pattern(key), v + after);
    Concat("requirement=" + name, lead);
    ForeignParam("requirement=" + name + lead, key, v, after);
  }

  lemma ForeignParam(a: string, key: string, v: string, after: string)
    requires NoQuote(a) && NoQuote(key) && NoQuote(v) && after != "" && after[0] == '"'
    ensures ExtractQuotedParam(a + Pattern(key) + (v + after), key) == Some(v)
  {
    FirstParam(a, key, v + after);
    assert (v + after)[|v|] == '"';
    BeforePrefix(v, after, '"');
  }

  /** Of a capability list, the names that are known are kept, and no others. */
  lemma CapabilitiesExactly(value: string, c: Capability)
    ensures c in ParseCapabilities(value) <==> Lists(Split(value, ','), c)
  {
    RecognizedExactly(Split(value, ','), c);
  }

  predicate Lists(pieces: seq<string>, c: Capability) {
    exists i :: 0 <= i < |pieces| && Trim(pieces[i]) == CapabilityName(c)
  }

  lemma {:induction false} RecognizedExactly(pieces: seq<string>, c: Capability)
    ensures c in Recognized(pieces) <==> Lists(pieces, c)
  {
    if pieces != [] {
      RecognizedExactly(pieces[1..], c);
      ListsMore(pieces, c);
      NameRead(Trim(pieces[0]), c);
    }
  }

  lemma NameRead(text: string, c: Capability)
    ensures ParseCapability(text) == Some(c) <==> text == CapabilityName(c)
  {
  }

  lemma ListsMore(pieces: seq<string>, c: Capability)
    requires pieces != []
    ensures Lists(pieces, c) <==> Trim(pieces[0]) == CapabilityName(c) || Lists(pieces[1..], c)
  {
    if i :| 0 <= i < |pieces| && Trim(pieces[i]) == CapabilityName(c) {
      if i > 0 { assert pieces[1..][i - 1] == pieces[i]; }
    }
    if i :| 0 <= i < |pieces[1..]| && Trim(pieces[1..][i]) == CapabilityName(c) {
      assert pieces[i + 1] == pieces[1..][i];
    }
  }

  /** `v` runs up to the first quote. */
  predicate ClosedAfter(rest: string, v: string) {
    |v| < |rest| && rest[..|v|] == v && NoQuote(v) && rest[|v|] == '"'
  }

  lemma ReadsUpToQuote(rest: string, v: string)
    ensures '"' in rest && Before(rest, '"') == v <==> ClosedAfter(rest, v)
  {
    if ClosedAfter(rest, v) {
      assert rest == v + rest[|v|..];
      BeforePrefix(v, rest[|v|..], '"');
    }
    if '"' in rest {
      assert Before(rest, '"') <= rest;
    }
  }

  /** A parameter opens at `i` and nowhere earlier, and closes after `v`. */
  predicate ParamAt(input: string, pattern: string, v: string, i: nat) {
    && OccursAt(input, pattern, i) && (forall j: nat :: j < i ==> !OccursAt(input, pattern, j))
    && ClosedAfter(input[i + |pattern|..], v)
  }

  /** A quoted parameter has this value if and only if it does at the first place where it opens; one that never closes has none. */
  lemma ParamExactly(input: string, key: string, v: string)
    ensures ExtractQuotedParam(input, key) == Some(v) <==> exists i: nat :: ParamAt(input, Pattern(key), v, i)
  {
    ExtractReads(input, key, v);
    PatternAt(input, Pattern(key), v);
  }

  lemma ExtractReads(input: string, key: string, v: string)
    ensures var found := Find(input, Pattern(key));
            ExtractQuotedParam(input, key) == Some(v) <==> found.Some? && ClosedAfter(input[found.value + |Pattern(key)|..], v)
  {
    var found := Find(input, Pattern(key));
    if found.Some? {
      ReadsUpToQuote(input[found.value + |Pattern(key)|..], v);
    }
  }

  lemma PatternAt(input: string, pattern: string, v: string)
    ensures (exists i: nat :: ParamAt(input, pattern, v, i))
            <==> Find(input, pattern).Some? && ClosedAfter(input[Find(input, pattern).value + |pattern|..], v)
  {
    var found := Find(input, pattern);
    if found.Some? && ClosedAfter(input[found.value + |pattern|..], v) {
      assert ParamAt(input, pattern, v, found.value);
    }
  }

  /** What an error about a challenge says is so. */
  lemma ErrorsExactly(value: string)
    ensures var (r, trimmed) := (FromHeader(value), Trim(value));
            && (r == Err(EmptyRequirement) <==> trimmed == "")
            && (r == Err(MissingRequirementMember) <==> trimmed != "" && !("requirement=" <= trimmed))
            && (r.Err? ==> MissesIn(trimmed, r.error))
  {
    var trimmed := Trim(value);
    if trimmed != "" && "requirement=" <= trimmed {
      var level := ParseLevel(Trim(Before(trimmed[|"requirement="|..], ';')));
      if level.Some? {
        LevelErrors(level.value, trimmed);
      }
    }
  }

  predicate MissesIn(trimmed: string, e: HeaderError) {
    match e
    case MissingResourceToken => ExtractQuotedParam(trimmed, "resource-token").None?
    case MissingInteractionUrl => ExtractQuotedParam(trimmed, "url").None?
    case MissingInteractionCode => ExtractQuotedParam(trimmed, "url").Some? && ExtractQuotedParam(trimmed, "code").None?
    case _ => true
  }

  lemma LevelErrors(level: Level, trimmed: string)
    ensures FromLevel(level, trimmed).Err? ==>
              && MissesIn(trimmed, FromLevel(level, trimmed).error)
              && FromLevel(level, trimmed).error !in {EmptyRequirement, MissingRequirementMember}
  {
  }
}
