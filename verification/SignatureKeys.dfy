/**
 The `Signature-Key` header: which key signed a message, one dictionary member per label
 (sections 3.2, 3.3 and 3.6 of draft-hardt-httpbis-signature-key-05).
 */
module SignatureKeys {
  import opened Prelude
  import opened Text
  import opened Tokens

  datatype Scheme = HwkScheme | JktJwtScheme | JwksUriScheme | JwtScheme | X509Scheme | OtherScheme(name: string)

  function SchemeName(s: Scheme): (r: string) {
    match s
    case HwkScheme => "hwk"
    case JktJwtScheme => "jkt-jwt"
    case JwksUriScheme => "jwks_uri"
    case JwtScheme => "jwt"
    case X509Scheme => "x509"
    case OtherScheme(name) => name
  }

  function ParseScheme(token: string): (r: Scheme) {
    if token == "hwk" then HwkScheme
    else if token == "jkt-jwt" then JktJwtScheme
    else if token == "jwks_uri" then JwksUriScheme
    else if token == "jwt" then JwtScheme
    else if token == "x509" then X509Scheme
    else OtherScheme(token)
  }

  datatype SignatureKey = JwtKey(jwt: string) | HwkKey(jwk: Jwk) | UnsupportedKeyScheme(scheme: Scheme)

  datatype KeyError = LabelNotFound | MissingJwtParam | MissingMember(name: string) | UnsupportedScheme(name: string)

  function Param(key: string, v: string): (r: string) {
    key + "=\"" + v + "\""
  }

  function OptionalParam(key: string, v: Option<string>): (r: seq<string>) {
    if v.Some? then [Param(key, v.value)] else []
  }

  function HwkParts(jwk: Jwk): (r: seq<string>) {
    ["hwk", Param("kty", jwk.kty), Param("crv", jwk.crv), Param("x", jwk.x)] + OptionalParam("y", jwk.y) + OptionalParam("kid", jwk.kid)
  }

  function JwtParts(jwt: string): (r: seq<string>) { ["jwt", Param("jwt", jwt)] }

  function MemberParts(key: SignatureKey): (r: seq<string>)
    requires !key.UnsupportedKeyScheme?
  {
    if key.JwtKey? then JwtParts(key.jwt) else HwkParts(key.jwk)
  }

  function MemberValue(key: SignatureKey): (r: Result<string, KeyError>) {
    match key
    case UnsupportedKeyScheme(scheme) => Err(UnsupportedScheme(SchemeName(scheme)))
    case _ => Ok(Join(MemberParts(key), ";"))
  }

  method ToMemberValue(key: SignatureKey) returns (r: Result<string, KeyError>)
    ensures r == MemberValue(key)
  {
    match key
    case UnsupportedKeyScheme(scheme) => return Err(UnsupportedScheme(SchemeName(scheme)));
    case JwtKey(jwt) =>
      r := Ok("jwt" + ";" + Param("jwt", jwt));
      assert MemberParts(key)[1..] == [Param("jwt", jwt)];
      assert Join([Param("jwt", jwt)], ";") == Param("jwt", jwt);
    case HwkKey(jwk) =>
      var parts := ["hwk", Param("kty", jwk.kty), Param("crv", jwk.crv), Param("x", jwk.x)];
      if jwk.y.Some? {
        parts := parts + [Param("y", jwk.y.value)];
      }
      if jwk.kid.Some? {
        parts := parts + [Param("kid", jwk.kid.value)];
      }
      assert parts == HwkParts(jwk);
      r := Ok(Join(parts, ";"));
  }

  function ToHeader(key: SignatureKey, tag: string): (r: Result<string, KeyError>) {
    match MemberValue(key)
    case Err(e) => Err(e)
    case Ok(value) => Ok(tag + "=" + value)
  }

  // ----- parsing -----

  /** A part `k = v`, trimmed, with quotes stripped from both ends of the value. */
  function KeyValue(part: string): (r: Option<(string, string)>) {
    var p := Trim(part);
    match IndexOf(p, '=')
    case None => None
    case Some(i) => Some((Trim(p[..i]), TrimChar(Trim(p[i + 1..]), '"')))
  }

  /** The last part with this key wins. */
  function ParamOf(parts: seq<string>, key: string): (r: Option<string>) {
    if parts == [] then None
    else
      match KeyValue(parts[|parts| - 1])
      case Some((k, v)) => if k == key then Some(v) else ParamOf(parts[..|parts| - 1], key)
      case None => ParamOf(parts[..|parts| - 1], key)
  }

  const JWT_PREFIX := "jwt=\""

  /** The last `jwt="…"` part wins; one that is not closed is an error wherever it stands. */
  function JwtOf(parts: seq<string>): (r: Result<Option<string>, KeyError>) {
    if parts == [] then Ok(None)
    else
      match JwtOf(parts[..|parts| - 1])
      case Err(e) => Err(e)
      case Ok(before) =>
        var p := Trim(parts[|parts| - 1]);
        if JWT_PREFIX <= p then
          var v := p[|JWT_PREFIX|..];
          if '"' in v then Ok(Some(Before(v, '"'))) else Err(MissingJwtParam)
        else Ok(before)
  }

  function HwkOf(parts: seq<string>): (r: Result<SignatureKey, KeyError>) {
    var kty, crv, x := ParamOf(parts, "kty"), ParamOf(parts, "crv"), ParamOf(parts, "x");
    if kty.None? then Err(MissingMember("kty"))
    else if crv.None? then Err(MissingMember("crv"))
    else if x.None? then Err(MissingMember("x"))
    else Ok(HwkKey(Jwk(kty.value, crv.value, x.value, ParamOf(parts, "y"), ParamOf(parts, "kid"))))
  }

  function MemberOf(member: string): (r: Result<SignatureKey, KeyError>) {
    var parts := Split(member, ';');
    var scheme := ParseScheme(Trim(parts[0]));
    match scheme
    case JwtScheme =>
      (match JwtOf(parts[1..])
       case Err(e) => Err(e)
       case Ok(None) => Err(MissingJwtParam)
       case Ok(Some(jwt)) => Ok(JwtKey(jwt)))
    case HwkScheme => HwkOf(parts[1..])
    case _ => Ok(UnsupportedKeyScheme(scheme))
  }

  method ParseMember(member: string) returns (r: Result<SignatureKey, KeyError>)
    ensures r == MemberOf(member)
  {
    var parts := Split(member, ';');
    var scheme := ParseScheme(Trim(parts[0]));
    if scheme.JwtScheme? {
      r := ParseJwtParts(parts[1..]);
    } else if scheme.HwkScheme? {
      r := ParseHwkParts(parts[1..]);
    } else {
      r := Ok(UnsupportedKeyScheme(scheme));
    }
  }

  lemma {:induction false} JwtOfErrs(parts: seq<string>, i: nat)
    requires i <= |parts| && JwtOf(parts[..i]).Err?
    ensures JwtOf(parts) == JwtOf(parts[..i])
  {
    if i == |parts| {
      assert parts[..i] == parts;
    } else {
      assert parts[..|parts| - 1][..i] == parts[..i];
      JwtOfErrs(parts[..|parts| - 1], i);
    }
  }

  method ParseJwtParts(parts: seq<string>) returns (r: Result<SignatureKey, KeyError>)
    ensures r == match JwtOf(parts)
                 case Err(e) => Err(e)
                 case Ok(None) => Err(MissingJwtParam)
                 case Ok(Some(jwt)) => Ok(JwtKey(jwt))
  {
    var jwt: Option<string> := None;
    for i := 0 to |parts|
      invariant JwtOf(parts[..i]) == Ok(jwt)
    {
      assert parts[..i + 1][..i] == parts[..i];
      var part := Trim(parts[i]);
      if JWT_PREFIX <= part {
        var v := part[|JWT_PREFIX|..];
        if '"' !in v {
          JwtOfErrs(parts, i + 1);
          return Err(MissingJwtParam);
        }
        jwt := Some(Before(v, '"'));
      }
    }
    assert parts[..|parts|] == parts;
    r := if jwt.Some? then Ok(JwtKey(jwt.value)) else Err(MissingJwtParam);
  }

  method ParseHwkParts(parts: seq<string>) returns (r: Result<SignatureKey, KeyError>)
    ensures r == HwkOf(parts)
  {
    var kty: Option<string>, crv: Option<string>, x: Option<string>, y: Option<string>, kid: Option<string> := None, None, None, None, None;
    for i := 0 to |parts|
      invariant kty == ParamOf(parts[..i], "kty") && crv == ParamOf(parts[..i], "crv") && x == ParamOf(parts[..i], "x")
      invariant y == ParamOf(parts[..i], "y") && kid == ParamOf(parts[..i], "kid")
    {
      assert parts[..i + 1][..i] == parts[..i];
      var pair := KeyValue(parts[i]);
      if pair.Some? {
        var (k, v) := pair.value;
        if k == "kty" { kty := Some(v); }
        else if k == "crv" { crv := Some(v); }
        else if k == "x" { x := Some(v); }
        else if k == "y" { y := Some(v); }
        else if k == "kid" { kid := Some(v); }
      }
    }
    assert parts[..|parts|] == parts;
    if kty.None? { return Err(MissingMember("kty")); }
    if crv.None? { return Err(MissingMember("crv")); }
    if x.None? { return Err(MissingMember("x")); }
    r := Ok(HwkKey(Jwk(kty.value, crv.value, x.value, y, kid)));
  }

  /** The text of the member filed under a label: from the first `label=` to the next comma. */
  function LookUp(header: string, tag: string): (r: Option<string>) {
    match Find(header, tag + "=")
    case None => None
    case Some(i) => Some(Trim(Before(header[i + |tag + "="|..], ',')))
  }

  function FromHeader(header: string, tag: string): (r: Result<SignatureKey, KeyError>) {
    match LookUp(header, tag)
    case None => Err(LabelNotFound)
    case Some(member) => MemberOf(member)
  }

  // ----- what a header gives back -----

  predicate PlainValue(v: string) {
    ';' !in v && ',' !in v && (v == "" || (v[0] != '"' && v[|v| - 1] != '"'))
  }

  predicate PlainOption(v: Option<string>) { v.Some? ==> PlainValue(v.value) }

  /** Keys the header can carry: no separators, and no quotes where they would be taken for the closing one. */
  predicate Plain(key: SignatureKey) {
    match key
    case JwtKey(jwt) => ';' !in jwt && ',' !in jwt && '"' !in jwt
    case HwkKey(j) => PlainValue(j.kty) && PlainValue(j.crv) && PlainValue(j.x) && PlainOption(j.y) && PlainOption(j.kid)
    case UnsupportedKeyScheme(_) => true
  }

  predicate PlainParts(parts: seq<string>) {
    forall i :: 0 <= i < |parts| ==> ';' !in parts[i] && ',' !in parts[i]
  }

  lemma KeyValueLacks(part: string, c: char)
    requires c !in part
    ensures KeyValue(part).Some? ==> c !in KeyValue(part).value.1
  {
    var p := Trim(part);
    TrimLacks(part, c);
    if IndexOf(p, '=').Some? {
      var w := p[IndexOf(p, '=').value + 1..];
      TrimLacks(w, c);
      TrimCharLacks(Trim(w), '"', c);
    }
  }

  lemma {:induction false} ParamIsPlain(parts: seq<string>, key: string)
    requires PlainParts(parts)
    ensures PlainOption(ParamOf(parts, key))
  {
    if parts != [] {
      ParamIsPlain(parts[..|parts| - 1], key);
      KeyValueLacks(parts[|parts| - 1], ';');
      KeyValueLacks(parts[|parts| - 1], ',');
    }
  }

  lemma {:induction false} JwtIsPlain(parts: seq<string>)
    requires PlainParts(parts)
    ensures JwtOf(parts).Ok? && JwtOf(parts).value.Some? ==> Plain(JwtKey(JwtOf(parts).value.value))
  {
    if parts != [] {
      JwtIsPlain(parts[..|parts| - 1]);
      TrimLacks(parts[|parts| - 1], ';');
      TrimLacks(parts[|parts| - 1], ',');
    }
  }

  lemma HwkIsPlain(parts: seq<string>)
    requires PlainParts(parts)
    ensures HwkOf(parts).Ok? ==> Plain(HwkOf(parts).value)
  {
    ParamIsPlain(parts, "kty");
    ParamIsPlain(parts, "crv");
    ParamIsPlain(parts, "x");
    ParamIsPlain(parts, "y");
    ParamIsPlain(parts, "kid");
  }

  lemma MemberIsPlain(member: string)
    requires ',' !in member
    ensures MemberOf(member).Ok? ==> Plain(MemberOf(member).value)
  {
    var parts := Split(member, ';');
    SplitLacks(member, ';', ';');
    SplitLacks(member, ';', ',');
    JwtIsPlain(parts[1..]);
    HwkIsPlain(parts[1..]);
  }

  lemma MemberTextLacksComma(rest: string)
    ensures ',' !in Trim(Before(rest, ','))
  {
    TrimLacks(Before(rest, ','), ',');
  }

  lemma LookUpLacksComma(header: string, tag: string)
    ensures LookUp(header, tag).Some? ==> ',' !in LookUp(header, tag).value
  {
    if Find(header, tag + "=").Some? {
      MemberTextLacksComma(header[Find(header, tag + "=").value + |tag + "="|..]);
    }
  }

  /** Whatever the header says, a key read from it is plain. */
  lemma ReadKeyIsPlain(header: string, tag: string)
    ensures FromHeader(header, tag).Ok? ==> Plain(FromHeader(header, tag).value)
  {
    LookUpLacksComma(header, tag);
    if LookUp(header, tag).Some? {
      MemberIsPlain(LookUp(header, tag).value);
    }
  }

  predicate KeyName(k: string) {
    k != "" && forall i :: 0 <= i < |k| ==> 'a' <= k[i] <= 'z'
  }

  lemma ParamShape(k: string, v: string)
    requires KeyName(k)
    ensures var (p, quoted) := (Param(k, v), "\"" + v + "\"");
            && Trim(p) == p && IndexOf(p, '=') == Some(|k|)
            && p[..|k|] == k && p[|k| + 1..] == quoted
  {
    var p, quoted := Param(k, v), "\"" + v + "\"";
    assert p == k + ['='] + quoted;
    assert p[0] == k[0] && p[|p| - 1] == '"';
    IndexOfPrefix(k, '=', quoted);
  }

  lemma ValueOfQuoted(k: string, v: string)
    requires KeyName(k) && (v == "" || (v[0] != '"' && v[|v| - 1] != '"'))
    ensures Trim(k) == k && TrimChar(Trim("\"" + v + "\""), '"') == v
  {
    var quoted := "\"" + v + "\"";
    assert quoted[0] == '"' && quoted[|quoted| - 1] == '"';
    TrimCharQuoted(v, '"');
  }

  lemma KeyValueIs(part: string, i: nat, k: string, w: string, v: string)
    requires Trim(part) == part && IndexOf(part, '=') == Some(i)
    requires part[..i] == k && Trim(k) == k && part[i + 1..] == w && TrimChar(Trim(w), '"') == v
    ensures KeyValue(part) == Some((k, v))
  {
  }

  lemma KeyValueOfParam(k: string, v: string)
    requires KeyName(k) && (v == "" || (v[0] != '"' && v[|v| - 1] != '"'))
    ensures KeyValue(Param(k, v)) == Some((k, v))
  {
    ParamShape(k, v);
    ValueOfQuoted(k, v);
    KeyValueIs(Param(k, v), |k|, k, "\"" + v + "\"", v);
  }

  lemma ParamOfMore(parts: seq<string>, k: string, v: string, key: string)
    requires KeyName(k) && PlainValue(v)
    ensures ParamOf(parts + [Param(k, v)], key) == if k == key then Some(v) else ParamOf(parts, key)
  {
    KeyValueOfParam(k, v);
    assert (parts + [Param(k, v)])[..|parts|] == parts;
  }

  lemma ParamOfOptional(parts: seq<string>, k: string, v: Option<string>, key: string)
    requires KeyName(k) && PlainOption(v)
    ensures ParamOf(parts + OptionalParam(k, v), key) == if k == key && v.Some? then v else ParamOf(parts, key)
  {
    if v.Some? {
      ParamOfMore(parts, k, v.value, key);
    } else {
      assert parts + OptionalParam(k, v) == parts;
    }
  }

  function HwkCore(jwk: Jwk): (r: seq<string>) {
    [Param("kty", jwk.kty), Param("crv", jwk.crv), Param("x", jwk.x)]
  }

  lemma TwoOptionals(core: seq<string>, k4: string, v4: Option<string>, k5: string, v5: Option<string>, key: string)
    requires KeyName(k4) && KeyName(k5) && PlainOption(v4) && PlainOption(v5)
    ensures ParamOf(core + OptionalParam(k4, v4) + OptionalParam(k5, v5), key)
            == if k5 == key && v5.Some? then v5 else if k4 == key && v4.Some? then v4 else ParamOf(core, key)
  {
    ParamOfOptional(core, k4, v4, key);
    ParamOfOptional(core + OptionalParam(k4, v4), k5, v5, key);
  }

  lemma OneParam(k: string, v: string, key: string)
    requires KeyName(k) && PlainValue(v)
    ensures ParamOf([Param(k, v)], key) == if k == key then Some(v) else None
  {
    ParamOfMore([], k, v, key);
    assert [] + [Param(k, v)] == [Param(k, v)];
  }

  lemma CoreShape(jwk: Jwk)
    ensures HwkCore(jwk) == [Param("kty", jwk.kty)] + OptionalParam("crv", Some(jwk.crv)) + OptionalParam("x", Some(jwk.x))
  {
  }

  lemma HwkTail(jwk: Jwk)
    ensures HwkParts(jwk)[1..] == HwkCore(jwk) + OptionalParam("y", jwk.y) + OptionalParam("kid", jwk.kid)
  {
    assert HwkParts(jwk) == ["hwk"] + HwkCore(jwk) + OptionalParam("y", jwk.y) + OptionalParam("kid", jwk.kid);
  }

  lemma ThreeParams(k1: string, v1: string, k2: string, v2: string, k3: string, v3: string, key: string)
    requires KeyName(k1) && KeyName(k2) && KeyName(k3) && PlainValue(v1) && PlainValue(v2) && PlainValue(v3)
    ensures ParamOf([Param(k1, v1)] + OptionalParam(k2, Some(v2)) + OptionalParam(k3, Some(v3)), key)
            == if k3 == key then Some(v3) else if k2 == key then Some(v2) else if k1 == key then Some(v1) else None
  {
    OneParam(k1, v1, key);
    TwoOptionals([Param(k1, v1)], k2, Some(v2), k3, Some(v3), key);
  }

  lemma CoreParam(jwk: Jwk, key: string)
    requires PlainValue(jwk.kty) && PlainValue(jwk.crv) && PlainValue(jwk.x)
    ensures ParamOf(HwkCore(jwk), key)
            == if key == "x" then Some(jwk.x) else if key == "crv" then Some(jwk.crv) else if key == "kty" then Some(jwk.kty) else None
  {
    CoreShape(jwk);
    ThreeParams("kty", jwk.kty, "crv", jwk.crv, "x", jwk.x, key);
  }

  lemma HwkParamOf(jwk: Jwk, key: string)
    requires Plain(HwkKey(jwk))
    ensures ParamOf(HwkParts(jwk)[1..], key)
            == if key == "kid" && jwk.kid.Some? then jwk.kid
               else if key == "y" && jwk.y.Some? then jwk.y
               else ParamOf(HwkCore(jwk), key)
  {
    HwkTail(jwk);
    TwoOptionals(HwkCore(jwk), "y", jwk.y, "kid", jwk.kid, key);
  }

  lemma HwkField(jwk: Jwk, key: string)
    requires Plain(HwkKey(jwk)) && key in {"kty", "crv", "x", "y", "kid"}
    ensures ParamOf(HwkParts(jwk)[1..], key)
            == if key == "kty" then Some(jwk.kty) else if key == "crv" then Some(jwk.crv) else if key == "x" then Some(jwk.x)
               else if key == "y" then jwk.y else jwk.kid
  {
    HwkParamOf(jwk, key);
    CoreParam(jwk, key);
  }

  lemma HwkOfParts(jwk: Jwk)
    requires Plain(HwkKey(jwk))
    ensures HwkOf(HwkParts(jwk)[1..]) == Ok(HwkKey(jwk))
  {
    HwkField(jwk, "kty");
    HwkField(jwk, "crv");
    HwkField(jwk, "x");
    HwkField(jwk, "y");
    HwkField(jwk, "kid");
  }

  lemma JwtOfOne(p: string, v: string)
    requires Trim(p) == p && JWT_PREFIX <= p && p[|JWT_PREFIX|..] == v && '"' in v
    ensures JwtOf([p]) == Ok(Some(Before(v, '"')))
  {
    assert [p][..0] == [];
  }

  lemma JwtParamText(jwt: string)
    ensures Param("jwt", jwt) == JWT_PREFIX + (jwt + "\"") && Trim(Param("jwt", jwt)) == Param("jwt", jwt)
  {
    assert JWT_PREFIX == "jwt" + "=\"";
    var p := Param("jwt", jwt);
    assert p[0] == 'j' && p[|p| - 1] == '"';
  }

  lemma JwtOfParts(jwt: string)
    requires '"' !in jwt
    ensures JwtOf(JwtParts(jwt)[1..]) == Ok(Some(jwt))
  {
    JwtParamText(jwt);
    var v := jwt + "\"";
    assert v[|jwt|] == '"';
    BeforePrefix(jwt, "\"", '"');
    JwtOfOne(Param("jwt", jwt), v);
    assert JwtParts(jwt)[1..] == [Param("jwt", jwt)];
  }

  predicate WellFormedPart(p: string) {
    p != "" && ';' !in p && ',' !in p
  }

  predicate WellFormedParts(parts: seq<string>) {
    && parts != [] && (forall i :: 0 <= i < |parts| ==> WellFormedPart(parts[i]))
    && !IsSpace(parts[0][0]) && parts[|parts| - 1][|parts[|parts| - 1]| - 1] == '"'
  }

  lemma ParamIsWellFormed(k: string, v: string)
    requires KeyName(k) && ';' !in v && ',' !in v
    ensures WellFormedPart(Param(k, v)) && Param(k, v)[|Param(k, v)| - 1] == '"'
  {
    assert forall c :: c in Param(k, v) ==> c in k || c in v || c == '=' || c == '"';
  }

  lemma PartsAreWellFormed(key: SignatureKey)
    requires !key.UnsupportedKeyScheme? && Plain(key)
    ensures WellFormedParts(MemberParts(key))
  {
    match key
    case JwtKey(jwt) => ParamIsWellFormed("jwt", jwt);
    case HwkKey(j) =>
      ParamIsWellFormed("kty", j.kty);
      ParamIsWellFormed("crv", j.crv);
      ParamIsWellFormed("x", j.x);
      if j.y.Some? { ParamIsWellFormed("y", j.y.value); }
      if j.kid.Some? { ParamIsWellFormed("kid", j.kid.value); }
  }

  /** Joined parts have no comma and nothing to trim, and split into the parts again. */
  lemma JoinedParts(parts: seq<string>)
    requires WellFormedParts(parts)
    ensures var value := Join(parts, ";");
            ',' !in value && Trim(value) == value && Split(value, ';') == parts
  {
    JoinLacks(parts, ";", ',');
    JoinEnds(parts, ";");
    SplitJoin(parts, ';');
  }

  lemma MemberText(key: SignatureKey)
    requires !key.UnsupportedKeyScheme? && Plain(key)
    ensures var value := MemberValue(key).value;
            ',' !in value && Trim(value) == value && Split(value, ';') == MemberParts(key)
  {
    PartsAreWellFormed(key);
    JoinedParts(MemberParts(key));
  }

  lemma JwtMemberIs(member: string, parts: seq<string>, jwt: string)
    requires Split(member, ';') == parts && parts != [] && Trim(parts[0]) == "jwt" && JwtOf(parts[1..]) == Ok(Some(jwt))
    ensures MemberOf(member) == Ok(JwtKey(jwt))
  {
  }

  lemma HwkMemberIs(member: string, parts: seq<string>, key: SignatureKey)
    requires Split(member, ';') == parts && parts != [] && Trim(parts[0]) == "hwk" && HwkOf(parts[1..]) == Ok(key)
    ensures MemberOf(member) == Ok(key)
  {
  }

  lemma JwtRoundTrip(jwt: string)
    requires Plain(JwtKey(jwt))
    ensures MemberOf(MemberValue(JwtKey(jwt)).value) == Ok(JwtKey(jwt))
  {
    MemberText(JwtKey(jwt));
    JwtOfParts(jwt);
    JwtMemberIs(MemberValue(JwtKey(jwt)).value, JwtParts(jwt), jwt);
  }

  lemma HwkRoundTrip(jwk: Jwk)
    requires Plain(HwkKey(jwk))
    ensures MemberOf(MemberValue(HwkKey(jwk)).value) == Ok(HwkKey(jwk))
  {
    MemberText(HwkKey(jwk));
    HwkOfParts(jwk);
    HwkMemberIs(MemberValue(HwkKey(jwk)).value, HwkParts(jwk), HwkKey(jwk));
  }

  lemma MemberRoundTrip(key: SignatureKey)
    requires !key.UnsupportedKeyScheme? && Plain(key)
    ensures MemberOf(MemberValue(key).value) == Ok(key)
  {
    if key.JwtKey? {
      JwtRoundTrip(key.jwt);
    } else {
      HwkRoundTrip(key.jwk);
    }
  }

  /** The header of a JWT key is as readable as its label and its token. */
  lemma JwtHeaderReadable(jwt: string, tag: string)
    ensures Readable(ToHeader(JwtKey(jwt), tag).value) <==> Readable(tag) && Readable(jwt)
  {
    var quoted := Param("jwt", jwt);
    ReadableParts("jwt" + "=\"" + jwt, "\"");
    ReadableParts("jwt" + "=\"", jwt);
    assert Join([quoted], ";") == quoted && JwtParts(jwt)[1..] == [quoted];
    assert Join(JwtParts(jwt), ";") == "jwt" + ";" + quoted;
    ReadableParts("jwt" + ";", quoted);
    ReadableParts(tag + "=", Join(JwtParts(jwt), ";"));
    ReadableParts(tag, "=");
  }

  lemma LookUpIs(header: string, tag: string, i: nat, value: string)
    requires Find(header, tag + "=") == Some(i)
    requires Before(header[i + |tag + "="|..], ',') == value && Trim(value) == value
    ensures LookUp(header, tag) == Some(value)
  {
  }

  lemma DropTwo(a: string, b: string, c: string, d: string)
    ensures (a + (b + c) + d)[|a| + |b|..] == c + d
  {
  }

  lemma LooksUpText(before: string, tag: string, value: string, after: string)
    requires ',' !in value && Trim(value) == value && (after == "" || after[0] == ',')
    requires Find(before + (tag + "=" + value) + after, tag + "=") == Some(|before|)
    ensures LookUp(before + (tag + "=" + value) + after, tag) == Some(value)
  {
    DropTwo(before, tag + "=", value, after);
    BeforePrefix(value, after, ',');
    LookUpIs(before + (tag + "=" + value) + after, tag, |before|, value);
  }

  /** A member is read back from any text in which its label comes first and a comma, or nothing, comes next. */
  lemma ReadsItsMember(before: string, tag: string, key: SignatureKey, after: string)
    requires !key.UnsupportedKeyScheme? && Plain(key)
    requires after == "" || after[0] == ','
    requires Find(before + (tag + "=" + MemberValue(key).value) + after, tag + "=") == Some(|before|)
    ensures FromHeader(before + (tag + "=" + MemberValue(key).value) + after, tag) == Ok(key)
  {
    MemberText(key);
    MemberRoundTrip(key);
    LooksUpText(before, tag, MemberValue(key).value, after);
  }

  lemma PlainHeaderReads(key: SignatureKey, tag: string)
    requires !key.UnsupportedKeyScheme? && Plain(key)
    ensures FromHeader(ToHeader(key, tag).value, tag) == Ok(key)
  {
    var value := MemberValue(key).value;
    var header := tag + "=" + value;
    assert header == "" + (tag + "=" + value) + "";
    FoundAt("", tag, value, "", header);
    ReadsItsMember("", tag, key, "");
  }

  /** One member: exactly the plain keys survive. */
  lemma HeaderRoundTrip(key: SignatureKey, tag: string)
    requires !key.UnsupportedKeyScheme?
    ensures FromHeader(ToHeader(key, tag).value, tag) == Ok(key) <==> Plain(key)
  {
    var header := ToHeader(key, tag).value;
    ReadKeyIsPlain(header, tag);
    if Plain(key) {
      PlainHeaderReads(key, tag);
    }
  }

  function MemberTexts(members: seq<(string, SignatureKey)>): (r: seq<string>)
    requires forall m :: m in members ==> !m.1.UnsupportedKeyScheme?
    ensures |r| == |members|
    ensures forall i :: 0 <= i < |members| ==> r[i] == members[i].0 + "=" + MemberValue(members[i].1).value
  {
    if members == [] then [] else [members[0].0 + "=" + MemberValue(members[0].1).value] + MemberTexts(members[1..])
  }

  lemma FoundAt(before: string, tag: string, value: string, after: string, header: string)
    requires header == before + (tag + "=" + value) + after
    requires forall j: nat :: j < |before| ==> !OccursAt(header, tag + "=", j)
    ensures Find(header, tag + "=") == Some(|before|)
  {
    assert header[|before|..|before| + |tag + "="|] == tag + "=";
    assert OccursAt(header, tag + "=", |before|);
  }

  /** Many members: looking up a label gives that member's key when `label=` does not occur earlier. */
  lemma ManyMembers(members: seq<(string, SignatureKey)>, i: nat, sep: string)
    requires i < |members| && (forall m :: m in members ==> !m.1.UnsupportedKeyScheme?)
    requires sep != "" && sep[0] == ','
    requires Plain(members[i].1)
    requires forall j: nat :: j < |Preceding(MemberTexts(members), sep, i)| ==> !OccursAt(Join(MemberTexts(members), sep), members[i].0 + "=", j)
    ensures FromHeader(Join(MemberTexts(members), sep), members[i].0) == Ok(members[i].1)
  {
    var texts := MemberTexts(members);
    var before, after := Preceding(texts, sep, i), Following(texts, sep, i);
    var (tag, key) := members[i];
    JoinAround(texts, sep, i);
    FoundAt(before, tag, MemberValue(key).value, after, Join(texts, sep));
    ReadsItsMember(before, tag, key, after);
  }

  // ----- the text itself, and text from elsewhere -----

  /** What the header of one member says, letter by letter. */
  lemma HeaderText(key: SignatureKey, tag: string)
    ensures match key
            case JwtKey(jwt) => ToHeader(key, tag) == Ok(tag + "=" + ("jwt" + ";" + ("jwt" + "=\"" + jwt + "\"")))
            case HwkKey(jwk) =>
              ToHeader(key, tag)
              == Ok(tag + "=" + Join(["hwk", "kty" + "=\"" + jwk.kty + "\"", "crv" + "=\"" + jwk.crv + "\"", "x" + "=\"" + jwk.x + "\""]
                                     + (if jwk.y.Some? then ["y" + "=\"" + jwk.y.value + "\""] else [])
                                     + (if jwk.kid.Some? then ["kid" + "=\"" + jwk.kid.value + "\""] else []), ";"))
            case UnsupportedKeyScheme(scheme) => ToHeader(key, tag) == Err(UnsupportedScheme(SchemeName(scheme)))
  {
    if key.JwtKey? {
      JwtText(key.jwt);
    }
  }

  lemma JwtText(jwt: string)
    ensures Join(JwtParts(jwt), ";") == "jwt" + ";" + Param("jwt", jwt)
  {
    assert JwtParts(jwt)[1..] == [Param("jwt", jwt)];
    assert Join([Param("jwt", jwt)], ";") == Param("jwt", jwt);
  }

  type Pairs = seq<Option<(string, string)>>

  function PairsOf(parts: seq<string>): (r: Pairs)
    ensures |r| == |parts| && forall i :: 0 <= i < |r| ==> r[i] == KeyValue(parts[i])
  {
    seq(|parts|, i requires 0 <= i < |parts| => KeyValue(parts[i]))
  }

  /** Pair `i` gives the key this value, and no later pair gives it any. */
  predicate LastGiven(pairs: Pairs, key: string, v: string, i: int) {
    && 0 <= i < |pairs| && pairs[i] == Some((key, v))
    && forall j :: i < j < |pairs| ==> pairs[j].None? || pairs[j].value.0 != key
  }

  /** Of a repeated key parameter the last value counts. */
  lemma {:induction false} LastParameterCounts(parts: seq<string>, key: string, v: string)
    ensures ParamOf(parts, key) == Some(v) <==> exists i :: LastGiven(PairsOf(parts), key, v, i)
  {
    if parts != [] {
      var n, pairs := |parts| - 1, PairsOf(parts);
      LastParameterCounts(parts[..n], key, v);
      assert PairsOf(parts[..n]) == pairs[..n];
      LastGivenMore(pairs, key, v);
    }
  }

  lemma LastGivenMore(pairs: Pairs, key: string, v: string)
    requires pairs != []
    ensures var n := |pairs| - 1;
            (exists i :: LastGiven(pairs, key, v, i))
            <==> if pairs[n].Some? && pairs[n].value.0 == key then pairs[n].value.1 == v else exists i :: LastGiven(pairs[..n], key, v, i)
  {
    var n := |pairs| - 1;
    if pairs[n].Some? && pairs[n].value.0 == key {
      assert pairs[n].value == (key, pairs[n].value.1);
      assert pairs[n].value.1 == v ==> LastGiven(pairs, key, v, n);
    } else {
      forall i ensures LastGiven(pairs, key, v, i) <==> LastGiven(pairs[..n], key, v, i) {
        if LastGiven(pairs, key, v, i) { assert i < n; }
      }
    }
  }

  /** The text after the opening quote of a `jwt` parameter. */
  function Opening(part: string): (r: Option<string>) {
    if JWT_PREFIX <= Trim(part) then Some(Trim(part)[|JWT_PREFIX|..]) else None
  }

  predicate Closed(opening: Option<string>) { opening.Some? ==> '"' in opening.value }

  /** Every `jwt` parameter must be closed. */
  lemma {:induction false} JwtsAreClosed(parts: seq<string>)
    ensures JwtOf(parts).Ok? <==> forall i :: 0 <= i < |parts| ==> Closed(Opening(parts[i]))
  {
    if parts != [] {
      var n := |parts| - 1;
      JwtsAreClosed(parts[..n]);
      assert forall i :: 0 <= i < n ==> parts[..n][i] == parts[i];
      assert JwtOf(parts).Ok? <==> JwtOf(parts[..n]).Ok? && Closed(Opening(parts[n]));
    }
  }

  function OpeningsOf(parts: seq<string>): (r: seq<Option<string>>)
    ensures |r| == |parts| && forall i :: 0 <= i < |r| ==> r[i] == Opening(parts[i])
  {
    seq(|parts|, i requires 0 <= i < |parts| => Opening(parts[i]))
  }

  /** Opening `i` is the last there is, and closed after this text. */
  predicate LastOpened(openings: seq<Option<string>>, jwt: string, i: int) {
    && 0 <= i < |openings| && openings[i].Some? && jwt == Before(openings[i].value, '"')
    && forall j :: i < j < |openings| ==> openings[j].None?
  }

  /** Then the last one counts. */
  lemma {:induction false} LastJwtCounts(parts: seq<string>, jwt: string)
    requires JwtOf(parts).Ok?
    ensures JwtOf(parts) == Ok(Some(jwt)) <==> exists i :: LastOpened(OpeningsOf(parts), jwt, i)
  {
    if parts != [] {
      var n, openings := |parts| - 1, OpeningsOf(parts);
      assert JwtOf(parts) == if Opening(parts[n]).Some? then Ok(Some(Before(Opening(parts[n]).value, '"'))) else JwtOf(parts[..n]);
      LastJwtCounts(parts[..n], jwt);
      assert OpeningsOf(parts[..n]) == openings[..n];
      LastOpenedMore(openings, jwt);
    }
  }

  lemma LastOpenedMore(openings: seq<Option<string>>, jwt: string)
    requires openings != []
    ensures var n := |openings| - 1;
            (exists i :: LastOpened(openings, jwt, i))
            <==> if openings[n].Some? then jwt == Before(openings[n].value, '"') else exists i :: LastOpened(openings[..n], jwt, i)
  {
    var n := |openings| - 1;
    if openings[n].Some? {
      assert jwt == Before(openings[n].value, '"') ==> LastOpened(openings, jwt, n);
    } else {
      forall i ensures LastOpened(openings, jwt, i) <==> LastOpened(openings[..n], jwt, i) {
        if LastOpened(openings, jwt, i) { assert i < n; }
      }
    }
  }

  /** A key member that is said to be missing is the first of the three that is. */
  lemma MissingMemberIs(parts: seq<string>, name: string)
    ensures HwkOf(parts) == Err(MissingMember(name)) <==>
              || (name == "kty" && ParamOf(parts, "kty").None?)
              || (name == "crv" && ParamOf(parts, "kty").Some? && ParamOf(parts, "crv").None?)
              || (name == "x" && ParamOf(parts, "kty").Some? && ParamOf(parts, "crv").Some? && ParamOf(parts, "x").None?)
  {
  }
}
