/**
 Signing and verifying HTTP messages (section 2.5 of RFC 9421, with the key named in
 `Signature-Key`).

 Signatures are ideal: a signature carries the key that made it and the base it was made
 over, and verifies under that key over that base and nothing else. Of a header map only
 the first readable value of each name is kept; `Signature-Input` and `Signature` are
 kept parsed, by label.
 */
module HttpSignature {
  import opened Prelude
  import opened Text
  import opened Tokens
  import opened SignatureKeys

  type Fields = map<string, string>

  datatype Params = Params(covered: seq<string>, created: Option<nat>)

  datatype Base = Base(lines: seq<string>, params: Params)

  datatype Signature = Signature(key: Jwk, base: Base)

  datatype Message = Message(fields: Fields, inputs: Option<map<string, Params>>, signatures: Option<map<string, Signature>>)

  datatype SignatureError =
    | MissingSignatureKey | MissingSignatureInput | MissingSignature | BadSignatureKey(error: KeyError)
    | InvalidSignatureFormat | MissingComponent(name: string) | MissingCreated | CreatedInFuture | SignatureExpired
    | InvalidJwt | UnsupportedKeyType | AuthorizationHeaderMissing | VerificationFailed

  datatype SignError = BadMaterial(error: KeyError) | InvalidHeaderValue | DuplicateComponent

  datatype SigningMaterial = SigningMaterial(signingKey: Jwk, signatureKey: SignatureKey)

  datatype VerifyOptions = VerifyOptions(maxAge: nat, clockSkew: nat, requireAuthorization: bool, tag: Option<string>)

  const DEFAULT_LABEL := "sig"
  const DEFAULT_OPTIONS := VerifyOptions(60, 60, false, None)
  const SIGNATURE_KEY := "signature-key"
  const REQUIRED := ["@method", "@authority", "@path", SIGNATURE_KEY]

  datatype Parts = Parts(httpMethod: string, authority: string, path: string)

  // ----- signing -----

  /** One line of the signature base. */
  function Line(name: string, value: string): (r: string) {
    "\"" + name + "\": " + value
  }

  type Extras = seq<(string, string)>

  function ExtraNames(extras: Extras): (r: seq<string>)
    ensures |r| == |extras| && forall i :: 0 <= i < |r| ==> r[i] == extras[i].0
  {
    seq(|extras|, i requires 0 <= i < |extras| => extras[i].0)
  }

  function ExtraLines(extras: Extras): (r: seq<string>)
    ensures |r| == |extras| && forall i :: 0 <= i < |r| ==> r[i] == Line(extras[i].0, extras[i].1)
  {
    seq(|extras|, i requires 0 <= i < |extras| => Line(extras[i].0, extras[i].1))
  }

  function SignedBase(parts: Parts, keyHeader: string, extras: Extras, created: nat): (r: Base) {
    Base([Line("@method", Upper(parts.httpMethod)), Line("@authority", parts.authority), Line("@path", parts.path),
          Line(SIGNATURE_KEY, keyHeader)] + ExtraLines(extras),
         Params(REQUIRED + ExtraNames(extras), Some(created)))
  }

  /** A value that is sent but cannot be read hides the one that was there. */
  function WithKeyHeader(fields: Fields, keyHeader: string): (r: Fields) {
    if Readable(keyHeader) then fields[SIGNATURE_KEY := keyHeader] else fields - {SIGNATURE_KEY}
  }

  /** No component is listed twice (section 2 of RFC 9421). */
  predicate Distinct(names: seq<string>) {
    forall i, j :: 0 <= i < j < |names| ==> names[i] != names[j]
  }

  function Signed(m: Message, parts: Parts, material: SigningMaterial, extras: Extras, tag: string, created: nat)
    : (r: Result<Message, SignError>)
  {
    match ToHeader(material.signatureKey, tag)
    case Err(e) => Err(BadMaterial(e))
    case Ok(keyHeader) =>
      if !HeaderBytes(keyHeader) then Err(InvalidHeaderValue)
      else if !Distinct(REQUIRED + ExtraNames(extras)) then Err(DuplicateComponent)
      else
        var base := SignedBase(parts, keyHeader, extras, created);
        Ok(Message(WithKeyHeader(m.fields, keyHeader),
                   Some(map[tag := base.params]), Some(map[tag := Signature(material.signingKey, base)])))
  }

  class HeaderMap {
    var fields: Fields
    var inputs: Option<map<string, Params>>
    var signatures: Option<map<string, Signature>>

    function Contents(): (r: Message)
      reads this
    {
      Message(fields, inputs, signatures)
    }

    method Sign(parts: Parts, material: SigningMaterial, extras: Extras, tag: string, now: nat) returns (error: Option<SignError>)
      modifies this
      ensures match Signed(old(Contents()), parts, material, extras, tag, now)
              case Ok(signed) => error.None? && Contents() == signed
              case Err(DuplicateComponent) =>
                && error == Some(DuplicateComponent)
                && Contents() == old(Contents()).(fields := WithKeyHeader(old(fields), ToHeader(material.signatureKey, tag).value))
              case Err(e) => error == Some(e) && Contents() == old(Contents())
    {
      var keyHeader := ToHeader(material.signatureKey, tag);
      if keyHeader.Err? {
        return Some(BadMaterial(keyHeader.error));
      }
      if !HeaderBytes(keyHeader.value) {
        return Some(InvalidHeaderValue);
      }
      fields := WithKeyHeader(fields, keyHeader.value);
      var ids := REQUIRED;
      for i := 0 to |extras|
        invariant ids == REQUIRED + ExtraNames(extras[..i])
      {
        ids := ids + [extras[i].0];
        assert ExtraNames(extras[..i + 1]) == ExtraNames(extras[..i]) + [extras[i].0];
      }
      assert extras[..|extras|] == extras;
      if !Distinct(ids) {
        return Some(DuplicateComponent);
      }
      var params := Params(ids, Some(now));
      var start := [Line("@method", Upper(parts.httpMethod)), Line("@authority", parts.authority), Line("@path", parts.path),
                    Line(SIGNATURE_KEY, keyHeader.value)];
      var lines := start;
      for i := 0 to |extras|
        invariant lines == start + ExtraLines(extras[..i])
      {
        lines := lines + [Line(extras[i].0, extras[i].1)];
        assert ExtraLines(extras[..i + 1]) == ExtraLines(extras[..i]) + [Line(extras[i].0, extras[i].1)];
      }
      var base := Base(lines, params);
      inputs := Some(map[tag := params]);
      signatures := Some(map[tag := Signature(material.signingKey, base)]);
      error := None;
    }

    method Verify(parts: Parts, options: VerifyOptions, cnf: string -> Option<Jwk>, now: nat)
      returns (r: Result<Verified, SignatureError>)
      ensures r == Verification(Contents(), parts, options, cnf, now)
    {
      var tag := if options.tag.Some? then options.tag.value else DEFAULT_LABEL;
      if SIGNATURE_KEY !in fields { return Err(MissingSignatureKey); }
      if inputs.None? { return Err(MissingSignatureInput); }
      if signatures.None? { return Err(MissingSignature); }
      var signatureKey := FromHeader(fields[SIGNATURE_KEY], tag);
      if signatureKey.Err? { return Err(BadSignatureKey(signatureKey.error)); }
      if tag !in inputs.value || tag !in signatures.value { return Err(InvalidSignatureFormat); }
      r := VerifyWith(parts, options, cnf, now, tag, signatureKey.value);
    }

    method VerifyWith(
      parts: Parts, options: VerifyOptions, cnf: string -> Option<Jwk>, now: nat, tag: string, signatureKey: SignatureKey)
      returns (r: Result<Verified, SignatureError>)
      requires SIGNATURE_KEY in fields && inputs.Some? && signatures.Some? && tag in inputs.value && tag in signatures.value
      ensures r == VerifiedWith(Contents(), parts, options, cnf, now, tag, signatureKey)
    {
      var params := inputs.value[tag];
      var missing := FindMissing(REQUIRED, params.covered);
      if missing.Some? { return Err(MissingComponent(missing.value)); }
      if options.requireAuthorization && "authorization" !in params.covered { return Err(MissingComponent("authorization")); }
      if params.created.None? { return Err(MissingCreated); }
      var created := params.created.value;
      if created > now + options.clockSkew { return Err(CreatedInFuture); }
      var age := if now >= created then now - created else 0;
      if age > options.maxAge + options.clockSkew { return Err(SignatureExpired); }
      var resolved := ResolvePublicJwk(signatureKey, cnf);
      if resolved.Err? { return Err(resolved.error); }
      var thumb := Thumbprint(resolved.value.0);
      if thumb.None? { return Err(UnsupportedKeyType); }
      var lines := RebuildLines(fields, parts, fields[SIGNATURE_KEY], params.covered);
      if lines.Err? { return Err(lines.error); }
      if !Verifies(signatures.value[tag], resolved.value.0, Base(lines.value, params)) { return Err(VerificationFailed); }
      r := Ok(Verified(tag, signatureKey, resolved.value.0, thumb.value, resolved.value.1));
    }
  }

  method FindMissing(required: seq<string>, covered: seq<string>) returns (missing: Option<string>)
    ensures missing == FirstMissing(required, covered)
  {
    for i := 0 to |required|
      invariant FirstMissing(required, covered) == FirstMissing(required[i..], covered)
    {
      if required[i] !in covered { return Some(required[i]); }
      assert required[i..][1..] == required[i + 1..];
    }
    missing := None;
  }

  method RebuildLines(fields: Fields, parts: Parts, keyHeader: string, covered: seq<string>) returns (r: Result<seq<string>, SignatureError>)
    ensures r == Rebuilt(fields, parts, keyHeader, covered)
  {
    var lines: seq<string> := [];
    for i := 0 to |covered|
      invariant Rebuilt(fields, parts, keyHeader, covered[..i]) == Ok(lines)
    {
      assert covered[..i + 1][..i] == covered[..i];
      var value := ComponentValue(fields, parts, keyHeader, covered[i]);
      if value.Err? {
        RebuiltErrs(fields, parts, keyHeader, covered, i + 1);
        return Err(value.error);
      }
      lines := lines + [Line(covered[i], value.value)];
    }
    assert covered[..|covered|] == covered;
    r := Ok(lines);
  }

  // ----- verifying -----

  datatype Verified = Verified(tag: string, signatureKey: SignatureKey, publicJwk: Jwk, thumbprint: Thumb, jwt: Option<string>)

  function ResolvePublicJwk(key: SignatureKey, cnf: string -> Option<Jwk>): (r: Result<(Jwk, Option<string>), SignatureError>) {
    match key
    case JwtKey(jwt) => if cnf(jwt).Some? then Ok((cnf(jwt).value, Some(jwt))) else Err(InvalidJwt)
    case HwkKey(jwk) => Ok((jwk, None))
    case UnsupportedKeyScheme(scheme) => Err(BadSignatureKey(UnsupportedScheme(SchemeName(scheme))))
  }

  function ComponentValue(fields: Fields, parts: Parts, keyHeader: string, name: string): (r: Result<string, SignatureError>) {
    if name == "@method" then Ok(Upper(parts.httpMethod))
    else if name == "@authority" then Ok(parts.authority)
    else if name == "@path" then Ok(parts.path)
    else if name == SIGNATURE_KEY then Ok(keyHeader)
    else if name in fields then Ok(fields[name])
    else Err(if name == "authorization" then AuthorizationHeaderMissing else MissingComponent("header"))
  }

  /** The base lines, in the order in which the components are listed. */
  function Rebuilt(fields: Fields, parts: Parts, keyHeader: string, covered: seq<string>): (r: Result<seq<string>, SignatureError>)
    ensures r.Ok? ==> |r.value| == |covered|
  {
    if covered == [] then Ok([])
    else
      var n := |covered| - 1;
      match Rebuilt(fields, parts, keyHeader, covered[..n])
      case Err(e) => Err(e)
      case Ok(lines) =>
        match ComponentValue(fields, parts, keyHeader, covered[n])
        case Err(e) => Err(e)
        case Ok(value) => Ok(lines + [Line(covered[n], value)])
  }

  lemma {:induction false} RebuiltErrs(fields: Fields, parts: Parts, keyHeader: string, covered: seq<string>, i: nat)
    requires i <= |covered| && Rebuilt(fields, parts, keyHeader, covered[..i]).Err?
    ensures Rebuilt(fields, parts, keyHeader, covered) == Rebuilt(fields, parts, keyHeader, covered[..i])
  {
    if i == |covered| {
      assert covered[..i] == covered;
    } else {
      assert covered[..|covered| - 1][..i] == covered[..i];
      RebuiltErrs(fields, parts, keyHeader, covered[..|covered| - 1], i);
    }
  }

  predicate Verifies(signature: Signature, key: Jwk, base: Base) {
    SameKey(signature.key, key) && signature.base == base
  }

  function FirstMissing(required: seq<string>, covered: seq<string>): (r: Option<string>)
    ensures r.None? <==> forall i :: 0 <= i < |required| ==> required[i] in covered
  {
    if required == [] then None
    else if required[0] !in covered then Some(required[0])
    else FirstMissing(required[1..], covered)
  }

  function Verification(m: Message, parts: Parts, options: VerifyOptions, cnf: string -> Option<Jwk>, now: nat)
    : (r: Result<Verified, SignatureError>)
  {
    var tag := if options.tag.Some? then options.tag.value else DEFAULT_LABEL;
    if SIGNATURE_KEY !in m.fields then Err(MissingSignatureKey)
    else if m.inputs.None? then Err(MissingSignatureInput)
    else if m.signatures.None? then Err(MissingSignature)
    else
      match FromHeader(m.fields[SIGNATURE_KEY], tag)
      case Err(e) => Err(BadSignatureKey(e))
      case Ok(key) =>
        if tag !in m.inputs.value || tag !in m.signatures.value then Err(InvalidSignatureFormat)
        else VerifiedWith(m, parts, options, cnf, now, tag, key)
  }

  function VerifiedWith(m: Message, parts: Parts, options: VerifyOptions, cnf: string -> Option<Jwk>, now: nat, tag: string, key: SignatureKey)
    : (r: Result<Verified, SignatureError>)
    requires SIGNATURE_KEY in m.fields && m.inputs.Some? && m.signatures.Some?
    requires tag in m.inputs.value && tag in m.signatures.value
  {
    var params := m.inputs.value[tag];
    var missing := FirstMissing(REQUIRED, params.covered);
    if missing.Some? then Err(MissingComponent(missing.value))
    else if options.requireAuthorization && "authorization" !in params.covered then Err(MissingComponent("authorization"))
    else if params.created.None? then Err(MissingCreated)
    else if params.created.value > now + options.clockSkew then Err(CreatedInFuture)
    else if (if now >= params.created.value then now - params.created.value else 0) > options.maxAge + options.clockSkew
    then Err(SignatureExpired)
    else
      match ResolvePublicJwk(key, cnf)
      case Err(e) => Err(e)
      case Ok((jwk, jwt)) =>
        match Thumbprint(jwk)
        case None => Err(UnsupportedKeyType)
        case Some(thumb) =>
          match Rebuilt(m.fields, parts, m.fields[SIGNATURE_KEY], params.covered)
          case Err(e) => Err(e)
          case Ok(lines) =>
            if Verifies(m.signatures.value[tag], jwk, Base(lines, params)) then Ok(Verified(tag, key, jwk, thumb, jwt))
            else Err(VerificationFailed)
  }

  // ----- agreement -----

  predicate InWindow(created: nat, options: VerifyOptions, now: nat) {
    created <= now + options.clockSkew && now <= created + options.maxAge + options.clockSkew
  }

  /** Extra components as they stand on the request. */
  predicate TakenFrom(extras: Extras, fields: Fields) {
    forall i :: 0 <= i < |extras| ==> extras[i].0 !in REQUIRED && extras[i].0 in fields && fields[extras[i].0] == extras[i].1
  }

  lemma RebuiltMore(fields: Fields, parts: Parts, keyHeader: string, covered: seq<string>, lines: seq<string>, name: string, value: string)
    requires Rebuilt(fields, parts, keyHeader, covered) == Ok(lines) && ComponentValue(fields, parts, keyHeader, name) == Ok(value)
    ensures Rebuilt(fields, parts, keyHeader, covered + [name]) == Ok(lines + [Line(name, value)])
  {
    assert (covered + [name])[..|covered|] == covered;
  }

  lemma OtherComponent(fields: Fields, parts: Parts, keyHeader: string, name: string)
    requires name !in REQUIRED && name in fields
    ensures ComponentValue(fields, parts, keyHeader, name) == Ok(fields[name])
  {
    assert REQUIRED[0] == "@method" && REQUIRED[1] == "@authority" && REQUIRED[2] == "@path" && REQUIRED[3] == SIGNATURE_KEY;
  }

  lemma LastExtra(extras: Extras)
    requires extras != []
    ensures var (before, last) := (extras[..|extras| - 1], extras[|extras| - 1]);
            && ExtraNames(extras) == ExtraNames(before) + [last.0]
            && ExtraLines(extras) == ExtraLines(before) + [Line(last.0, last.1)]
  {
  }

  lemma AppendLast(a: seq<string>, b: seq<string>, c: string)
    ensures a + (b + [c]) == (a + b) + [c]
  {
  }

  lemma {:induction false} RebuiltExtras(fields: Fields, parts: Parts, keyHeader: string, extras: Extras, covered: seq<string>, lines: seq<string>)
    requires TakenFrom(extras, fields) && Rebuilt(fields, parts, keyHeader, covered) == Ok(lines)
    ensures Rebuilt(fields, parts, keyHeader, covered + ExtraNames(extras)) == Ok(lines + ExtraLines(extras))
  {
    if extras == [] {
      assert covered + ExtraNames(extras) == covered && lines + ExtraLines(extras) == lines;
    } else {
      var before, name, value := extras[..|extras| - 1], extras[|extras| - 1].0, extras[|extras| - 1].1;
      RebuiltExtras(fields, parts, keyHeader, before, covered, lines);
      OtherComponent(fields, parts, keyHeader, name);
      RebuiltOneMore(fields, parts, keyHeader, covered, ExtraNames(before), lines, ExtraLines(before), name, value);
      LastExtra(extras);
    }
  }

  lemma RebuiltOneMore(
    fields: Fields, parts: Parts, keyHeader: string,
    covered: seq<string>, names: seq<string>, lines: seq<string>, extraLines: seq<string>, name: string, value: string)
    requires Rebuilt(fields, parts, keyHeader, covered + names) == Ok(lines + extraLines)
    requires ComponentValue(fields, parts, keyHeader, name) == Ok(value)
    ensures Rebuilt(fields, parts, keyHeader, covered + (names + [name])) == Ok(lines + (extraLines + [Line(name, value)]))
  {
    RebuiltMore(fields, parts, keyHeader, covered + names, lines + extraLines, name, value);
    AppendLast(covered, names, name);
    AppendLast(lines, extraLines, Line(name, value));
  }

  lemma RebuiltRequired(fields: Fields, parts: Parts, keyHeader: string)
    ensures Rebuilt(fields, parts, keyHeader, REQUIRED)
         == Ok([Line("@method", Upper(parts.httpMethod)), Line("@authority", parts.authority), Line("@path", parts.path), Line(SIGNATURE_KEY, keyHeader)])
  {
    var l1, l2, l3, l4 := Line("@method", Upper(parts.httpMethod)), Line("@authority", parts.authority), Line("@path", parts.path), Line(SIGNATURE_KEY, keyHeader);
    RebuiltMore(fields, parts, keyHeader, [], [], "@method", Upper(parts.httpMethod));
    RebuiltMore(fields, parts, keyHeader, [] + ["@method"], [] + [l1], "@authority", parts.authority);
    RebuiltMore(fields, parts, keyHeader, [] + ["@method"] + ["@authority"], [] + [l1] + [l2], "@path", parts.path);
    RebuiltMore(fields, parts, keyHeader, [] + ["@method"] + ["@authority"] + ["@path"], [] + [l1] + [l2] + [l3], SIGNATURE_KEY, keyHeader);
    assert REQUIRED == [] + ["@method"] + ["@authority"] + ["@path"] + [SIGNATURE_KEY];
    assert [l1, l2, l3, l4] == [] + [l1] + [l2] + [l3] + [l4];
  }

  /** The verifier rebuilds exactly the base that was signed. */
  lemma RebuildsSignedBase(fields: Fields, parts: Parts, keyHeader: string, extras: Extras, created: nat)
    requires TakenFrom(extras, fields)
    ensures var base := SignedBase(parts, keyHeader, extras, created);
            Rebuilt(fields, parts, keyHeader, base.params.covered) == Ok(base.lines)
  {
    RebuiltRequired(fields, parts, keyHeader);
    RebuiltExtras(fields, parts, keyHeader, extras, REQUIRED,
      [Line("@method", Upper(parts.httpMethod)), Line("@authority", parts.authority), Line("@path", parts.path), Line(SIGNATURE_KEY, keyHeader)]);
  }

  predicate NamesSigner(key: SignatureKey, signer: Jwk, cnf: string -> Option<Jwk>) {
    && ResolvePublicJwk(key, cnf).Ok? && SameKey(signer, ResolvePublicJwk(key, cnf).value.0)
    && Thumbprint(ResolvePublicJwk(key, cnf).value.0).Some?
  }

  lemma SignedWith(m: Message, parts: Parts, material: SigningMaterial, extras: Extras, tag: string, created: nat,
                   options: VerifyOptions, cnf: string -> Option<Jwk>, now: nat)
    requires Signed(m, parts, material, extras, tag, created).Ok? && Readable(ToHeader(material.signatureKey, tag).value)
    requires TakenFrom(extras, m.fields) && NamesSigner(material.signatureKey, material.signingKey, cnf)
    ensures var m' := Signed(m, parts, material, extras, tag, created).value;
            var (jwk, jwt) := ResolvePublicJwk(material.signatureKey, cnf).value;
            VerifiedWith(m', parts, options, cnf, now, tag, material.signatureKey)
            == if options.requireAuthorization && "authorization" !in ExtraNames(extras) then Err(MissingComponent("authorization"))
               else if created > now + options.clockSkew then Err(CreatedInFuture)
               else if !InWindow(created, options, now) then Err(SignatureExpired)
               else Ok(Verified(tag, material.signatureKey, jwk, Thumbprint(jwk).value, jwt))
  {
    var m' := Signed(m, parts, material, extras, tag, created).value;
    var keyHeader := m'.fields[SIGNATURE_KEY];
    assert TakenFrom(extras, m'.fields) by { assert REQUIRED[3] == SIGNATURE_KEY; }
    RebuildsSignedBase(m'.fields, parts, keyHeader, extras, created);
    var covered := REQUIRED + ExtraNames(extras);
    assert forall i :: 0 <= i < |REQUIRED| ==> covered[i] == REQUIRED[i];
    assert "authorization" in covered <==> "authorization" in ExtraNames(extras);
  }

  /** Components taken from the headers do not repeat the required ones. */
  lemma DistinctComponents(extras: Extras, fields: Fields)
    requires TakenFrom(extras, fields)
    ensures Distinct(REQUIRED + ExtraNames(extras)) <==> Distinct(ExtraNames(extras))
  {
    var all, names := REQUIRED + ExtraNames(extras), ExtraNames(extras);
    RequiredAreDistinct();
    if Distinct(names) {
      forall i, j | 0 <= i < j < |all| ensures all[i] != all[j] {
        if j >= 4 {
          assert all[j] == names[j - 4];
          if i >= 4 { assert all[i] == names[i - 4]; } else { assert all[i] == REQUIRED[i]; }
        } else {
          assert all[i] == REQUIRED[i] && all[j] == REQUIRED[j];
        }
      }
    }
    if Distinct(all) {
      forall i, j | 0 <= i < j < |names| ensures names[i] != names[j] {
        assert all[i + 4] == names[i] && all[j + 4] == names[j];
      }
    }
  }

  lemma RequiredAreDistinct()
    ensures Distinct(REQUIRED)
  {
    assert REQUIRED[0][1] == 'm' && REQUIRED[1][1] == 'a' && REQUIRED[2][1] == 'p' && REQUIRED[3][1] == 'i';
  }

  lemma SignsWhatFits(m: Message, parts: Parts, material: SigningMaterial, extras: Extras, tag: string, created: nat)
    requires !material.signatureKey.UnsupportedKeyScheme? && TakenFrom(extras, m.fields)
    ensures ToHeader(material.signatureKey, tag).Ok?
    ensures Signed(m, parts, material, extras, tag, created).Ok?
            <==> HeaderBytes(ToHeader(material.signatureKey, tag).value) && Distinct(ExtraNames(extras))
  {
    DistinctComponents(extras, m.fields);
  }

  lemma UnreadableIsRefused(m: Message, parts: Parts, material: SigningMaterial, extras: Extras, tag: string, created: nat,
                            options: VerifyOptions, cnf: string -> Option<Jwk>, now: nat)
    requires Signed(m, parts, material, extras, tag, created).Ok? && !Readable(ToHeader(material.signatureKey, tag).value)
    ensures Verification(Signed(m, parts, material, extras, tag, created).value, parts, options, cnf, now) == Err(MissingSignatureKey)
  {
  }

  lemma ReadableVerifies(m: Message, parts: Parts, material: SigningMaterial, extras: Extras, tag: string, created: nat,
                         options: VerifyOptions, cnf: string -> Option<Jwk>, now: nat)
    requires Signed(m, parts, material, extras, tag, created).Ok? && Readable(ToHeader(material.signatureKey, tag).value)
    requires Plain(material.signatureKey)
    requires options.tag == Some(tag) || (options.tag == None && tag == DEFAULT_LABEL)
    ensures var m' := Signed(m, parts, material, extras, tag, created).value;
            && SIGNATURE_KEY in m'.fields && m'.inputs.Some? && m'.signatures.Some? && tag in m'.inputs.value && tag in m'.signatures.value
            && Verification(m', parts, options, cnf, now) == VerifiedWith(m', parts, options, cnf, now, tag, material.signatureKey)
  {
    HeaderRoundTrip(material.signatureKey, tag);
  }

  lemma JwtOfKey(m: Message, parts: Parts, options: VerifyOptions, cnf: string -> Option<Jwk>, now: nat, tag: string, jwt: string)
    requires SIGNATURE_KEY in m.fields && m.inputs.Some? && m.signatures.Some? && tag in m.inputs.value && tag in m.signatures.value
    ensures var r := VerifiedWith(m, parts, options, cnf, now, tag, JwtKey(jwt)); r.Ok? ==> r.value.jwt == Some(jwt)
  {
  }

  /** Whatever else is wrong with it, a signed message that verifies is verified under the token it was signed with. */
  lemma VerifiedUnderItsToken(m: Message, parts: Parts, signer: Jwk, jwt: string, extras: Extras, tag: string, created: nat,
                              options: VerifyOptions, cnf: string -> Option<Jwk>, now: nat)
    requires Plain(JwtKey(jwt)) && Signed(m, parts, SigningMaterial(signer, JwtKey(jwt)), extras, tag, created).Ok?
    requires options.tag == Some(tag) || (options.tag == None && tag == DEFAULT_LABEL)
    ensures var r := Verification(Signed(m, parts, SigningMaterial(signer, JwtKey(jwt)), extras, tag, created).value, parts, options, cnf, now);
            r.Ok? ==> r.value.jwt == Some(jwt)
  {
    var material := SigningMaterial(signer, JwtKey(jwt));
    if Readable(ToHeader(material.signatureKey, tag).value) {
      ReadableVerifies(m, parts, material, extras, tag, created, options, cnf, now);
      JwtOfKey(Signed(m, parts, material, extras, tag, created).value, parts, options, cnf, now, tag, jwt);
    } else {
      UnreadableIsRefused(m, parts, material, extras, tag, created, options, cnf, now);
    }
  }

  /** A message can be signed precisely when a header can hold the key's text and no component repeats, and then verifies precisely when that text can be read and the clock is in the window around its creation. */
  lemma VerifiesWhatWasSigned(m: Message, parts: Parts, material: SigningMaterial, extras: Extras, tag: string, created: nat,
                              options: VerifyOptions, cnf: string -> Option<Jwk>, now: nat)
    requires !material.signatureKey.UnsupportedKeyScheme? && Plain(material.signatureKey)
    requires TakenFrom(extras, m.fields) && NamesSigner(material.signatureKey, material.signingKey, cnf)
    requires options.tag == Some(tag) || (options.tag == None && tag == DEFAULT_LABEL)
    requires options.requireAuthorization ==> "authorization" in ExtraNames(extras)
    ensures ToHeader(material.signatureKey, tag).Ok?
    ensures Signed(m, parts, material, extras, tag, created).Ok?
            <==> HeaderBytes(ToHeader(material.signatureKey, tag).value) && Distinct(ExtraNames(extras))
    ensures Signed(m, parts, material, extras, tag, created).Ok? ==>
              var r := Verification(Signed(m, parts, material, extras, tag, created).value, parts, options, cnf, now);
              var (jwk, jwt) := ResolvePublicJwk(material.signatureKey, cnf).value;
              && (r.Ok? <==> Readable(ToHeader(material.signatureKey, tag).value) && InWindow(created, options, now))
              && (r.Ok? ==> r == Ok(Verified(tag, material.signatureKey, jwk, Thumbprint(jwk).value, jwt)))
  {
    SignsWhatFits(m, parts, material, extras, tag, created);
    if Signed(m, parts, material, extras, tag, created).Ok? {
      if Readable(ToHeader(material.signatureKey, tag).value) {
        ReadableVerifies(m, parts, material, extras, tag, created, options, cnf, now);
        SignedWith(m, parts, material, extras, tag, created, options, cnf, now);
      } else {
        UnreadableIsRefused(m, parts, material, extras, tag, created, options, cnf, now);
      }
    }
  }

  lemma LineInjective(name: string, a: string, b: string)
    requires Line(name, a) == Line(name, b)
    ensures a == b
  {
    var pre := "\"" + name + "\": ";
    assert Line(name, a)[|pre|..] == a && Line(name, b)[|pre|..] == b;
  }

  lemma {:induction false} RebuiltAt(fields: Fields, parts: Parts, keyHeader: string, covered: seq<string>, i: nat)
    requires i < |covered| && Rebuilt(fields, parts, keyHeader, covered).Ok?
    ensures ComponentValue(fields, parts, keyHeader, covered[i]).Ok?
    ensures Rebuilt(fields, parts, keyHeader, covered).value[i] == Line(covered[i], ComponentValue(fields, parts, keyHeader, covered[i]).value)
  {
    if i < |covered| - 1 {
      RebuiltAt(fields, parts, keyHeader, covered[..|covered| - 1], i);
    }
  }

  /** The value a base was signed over for its component `i`. */
  function SignedValue(parts: Parts, keyHeader: string, extras: Extras, i: nat): (r: string)
    requires i < 4 + |extras|
  {
    if i == 0 then Upper(parts.httpMethod) else if i == 1 then parts.authority else if i == 2 then parts.path
    else if i == 3 then keyHeader else extras[i - 4].1
  }

  lemma SignedLineAt(parts: Parts, keyHeader: string, extras: Extras, created: nat, i: nat)
    requires i < 4 + |extras|
    ensures var base := SignedBase(parts, keyHeader, extras, created);
            |base.lines| == |base.params.covered| == 4 + |extras|
            && base.lines[i] == Line(base.params.covered[i], SignedValue(parts, keyHeader, extras, i))
  {
  }

  /** What the verifier sees for component `i` is what was signed for it. */
  lemma SeesSignedValue(fields: Fields, parts: Parts, keyHeader: string, signedParts: Parts, signedKey: string, extras: Extras, created: nat, i: nat)
    requires i < 4 + |extras|
    requires var base := SignedBase(signedParts, signedKey, extras, created);
             Rebuilt(fields, parts, keyHeader, base.params.covered) == Ok(base.lines)
    ensures var covered := SignedBase(signedParts, signedKey, extras, created).params.covered;
            ComponentValue(fields, parts, keyHeader, covered[i]) == Ok(SignedValue(signedParts, signedKey, extras, i))
  {
    var base := SignedBase(signedParts, signedKey, extras, created);
    SignedLineAt(signedParts, signedKey, extras, created, i);
    RebuiltAt(fields, parts, keyHeader, base.params.covered, i);
    LineInjective(base.params.covered[i], ComponentValue(fields, parts, keyHeader, base.params.covered[i]).value,
                  SignedValue(signedParts, signedKey, extras, i));
  }

  // ----- exactly which messages are accepted -----

  /** What the request at hand has for a component. */
  function Seen(m: Message, parts: Parts, name: string): (r: Option<string>) {
    if name == "@method" then Some(Upper(parts.httpMethod))
    else if name == "@authority" then Some(parts.authority)
    else if name == "@path" then Some(parts.path)
    else if name in m.fields then Some(m.fields[name])
    else None
  }

  /** One line per listed component, with what the request has for it. */
  predicate LinesOf(m: Message, parts: Parts, covered: seq<string>, lines: seq<string>) {
    && |lines| == |covered|
    && forall i :: 0 <= i < |covered| ==>
         Seen(m, parts, covered[i]).Some? && lines[i] == "\"" + covered[i] + "\": " + Seen(m, parts, covered[i]).value
  }

  /** The key that `Signature-Key` names, and the token it names it with. */
  predicate NamedBy(v: Verified, cnf: string -> Option<Jwk>) {
    match v.signatureKey
    case JwtKey(jwt) => cnf(jwt) == Some(v.publicJwk) && v.jwt == Some(jwt)
    case HwkKey(jwk) => v.publicJwk == jwk && v.jwt == None
    case UnsupportedKeyScheme(_) => false
  }

  /** The components a signature must list. */
  predicate Covers(covered: seq<string>, options: VerifyOptions) {
    && "@method" in covered && "@authority" in covered && "@path" in covered && "signature-key" in covered
    && (options.requireAuthorization ==> "authorization" in covered)
  }

  /** A fresh signature, by the key the message names, over the lines of this very request, the required ones among them. */
  predicate Acceptable(m: Message, parts: Parts, options: VerifyOptions, cnf: string -> Option<Jwk>, now: nat, v: Verified) {
    && v.tag == (if options.tag.Some? then options.tag.value else "sig")
    && "signature-key" in m.fields && FromHeader(m.fields["signature-key"], v.tag) == Ok(v.signatureKey)
    && m.inputs.Some? && v.tag in m.inputs.value && m.signatures.Some? && v.tag in m.signatures.value
    && NamedBy(v, cnf) && Thumbprint(v.publicJwk) == Some(v.thumbprint)
    && SignatureOk(m, parts, options, now, v.publicJwk, m.inputs.value[v.tag], m.signatures.value[v.tag])
  }

  predicate SignatureOk(m: Message, parts: Parts, options: VerifyOptions, now: nat, key: Jwk, params: Params, signature: Signature) {
    && Covers(params.covered, options)
    && params.created.Some? && InWindow(params.created.value, options, now)
    && SameKey(signature.key, key) && signature.base.params == params
    && LinesOf(m, parts, params.covered, signature.base.lines)
  }

  lemma SeenExactly(m: Message, parts: Parts, name: string)
    requires SIGNATURE_KEY in m.fields
    ensures var r := ComponentValue(m.fields, parts, m.fields[SIGNATURE_KEY], name);
            if r.Ok? then Seen(m, parts, name) == Some(r.value) else Seen(m, parts, name) == None
  {
  }

  lemma LinesOfMore(m: Message, parts: Parts, covered: seq<string>, lines: seq<string>)
    requires covered != []
    ensures var n := |covered| - 1;
            LinesOf(m, parts, covered, lines) <==>
              && |lines| == n + 1 && LinesOf(m, parts, covered[..n], lines[..n])
              && Seen(m, parts, covered[n]).Some? && lines[n] == Line(covered[n], Seen(m, parts, covered[n]).value)
  {
    var n := |covered| - 1;
    if |lines| == n + 1 && LinesOf(m, parts, covered[..n], lines[..n]) {
      assert forall i :: 0 <= i < n ==> covered[..n][i] == covered[i] && lines[..n][i] == lines[i];
    }
  }

  lemma {:induction false} RebuiltExactly(m: Message, parts: Parts, covered: seq<string>, lines: seq<string>)
    requires SIGNATURE_KEY in m.fields
    ensures Rebuilt(m.fields, parts, m.fields[SIGNATURE_KEY], covered) == Ok(lines) <==> LinesOf(m, parts, covered, lines)
  {
    if covered != [] {
      var n := |covered| - 1;
      LinesOfMore(m, parts, covered, lines);
      SeenExactly(m, parts, covered[n]);
      if |lines| == n + 1 {
        RebuiltExactly(m, parts, covered[..n], lines[..n]);
        assert lines == lines[..n] + [lines[n]];
      }
      if Rebuilt(m.fields, parts, m.fields[SIGNATURE_KEY], covered[..n]).Ok? {
        var before := Rebuilt(m.fields, parts, m.fields[SIGNATURE_KEY], covered[..n]).value;
        assert forall line: string :: (before + [line])[..n] == before && (before + [line])[n] == line;
      }
    }
  }

  lemma RequiredListed(covered: seq<string>)
    ensures FirstMissing(REQUIRED, covered).None?
            <==> "@method" in covered && "@authority" in covered && "@path" in covered && "signature-key" in covered
  {
    assert REQUIRED[0] == "@method" && REQUIRED[1] == "@authority" && REQUIRED[2] == "@path" && REQUIRED[3] == "signature-key";
  }

  lemma VerifiedWithExactly(
    m: Message, parts: Parts, options: VerifyOptions, cnf: string -> Option<Jwk>, now: nat, tag: string, key: SignatureKey, v: Verified)
    requires SIGNATURE_KEY in m.fields && m.inputs.Some? && m.signatures.Some?
    requires tag in m.inputs.value && tag in m.signatures.value
    ensures VerifiedWith(m, parts, options, cnf, now, tag, key) == Ok(v) <==>
              && v.tag == tag && v.signatureKey == key && NamedBy(v, cnf) && Thumbprint(v.publicJwk) == Some(v.thumbprint)
              && SignatureOk(m, parts, options, now, v.publicJwk, m.inputs.value[tag], m.signatures.value[tag])
  {
    var params, signature := m.inputs.value[tag], m.signatures.value[tag];
    RequiredListed(params.covered);
    RebuiltExactly(m, parts, params.covered, signature.base.lines);
  }

  /** Acceptance, whoever signed whatever. */
  lemma VerificationExactly(m: Message, parts: Parts, options: VerifyOptions, cnf: string -> Option<Jwk>, now: nat, v: Verified)
    ensures Verification(m, parts, options, cnf, now) == Ok(v) <==> Acceptable(m, parts, options, cnf, now, v)
  {
    var tag := if options.tag.Some? then options.tag.value else DEFAULT_LABEL;
    if SIGNATURE_KEY in m.fields && m.inputs.Some? && m.signatures.Some? && tag in m.inputs.value && tag in m.signatures.value {
      var key := FromHeader(m.fields[SIGNATURE_KEY], tag);
      if key.Ok? {
        VerifiedWithExactly(m, parts, options, cnf, now, tag, key.value, v);
      }
    }
  }

  /** The base holds this request's line for a component. */
  predicate HoldsLine(base: Base, m: Message, parts: Parts, name: string) {
    Seen(m, parts, name).Some? && Line(name, Seen(m, parts, name).value) in base.lines
  }

  /** Whatever base was signed: it holds the lines of the accepted request for every component that must be covered, and for every other it lists. */
  lemma AcceptedMeansSigned(m: Message, parts: Parts, options: VerifyOptions, cnf: string -> Option<Jwk>, now: nat, v: Verified, signer: Jwk, base: Base)
    requires Verification(m, parts, options, cnf, now) == Ok(v)
    requires m.signatures.Some? && v.tag in m.signatures.value && m.signatures.value[v.tag] == Signature(signer, base)
    ensures SameKey(signer, v.publicJwk) && base.params.created.Some? && InWindow(base.params.created.value, options, now)
    ensures Line("@method", Upper(parts.httpMethod)) in base.lines
    ensures Line("@authority", parts.authority) in base.lines && Line("@path", parts.path) in base.lines
    ensures SIGNATURE_KEY in m.fields && Line(SIGNATURE_KEY, m.fields[SIGNATURE_KEY]) in base.lines
    ensures options.requireAuthorization ==>
              "authorization" in m.fields && Line("authorization", m.fields["authorization"]) in base.lines
    ensures forall name :: name in base.params.covered ==> HoldsLine(base, m, parts, name)
  {
    VerificationExactly(m, parts, options, cnf, now, v);
    forall name | name in base.params.covered ensures HoldsLine(base, m, parts, name) {
      var i :| 0 <= i < |base.params.covered| && base.params.covered[i] == name;
      assert base.lines[i] == Line(name, Seen(m, parts, name).value);
    }
    assert HoldsLine(base, m, parts, "@method") && HoldsLine(base, m, parts, "@authority") && HoldsLine(base, m, parts, "@path");
    assert HoldsLine(base, m, parts, "signature-key");
    assert options.requireAuthorization ==> HoldsLine(base, m, parts, "authorization");
  }

  /** Two requests on which one signature is accepted are the same in everything covered, whatever their parties' options and clocks. */
  lemma SignatureFitsOneRequest(
    m1: Message, parts1: Parts, options1: VerifyOptions, cnf1: string -> Option<Jwk>, now1: nat, v1: Verified,
    m2: Message, parts2: Parts, options2: VerifyOptions, cnf2: string -> Option<Jwk>, now2: nat, v2: Verified)
    requires Verification(m1, parts1, options1, cnf1, now1) == Ok(v1) && Verification(m2, parts2, options2, cnf2, now2) == Ok(v2)
    requires m1.signatures.Some? && v1.tag in m1.signatures.value && m2.signatures.Some? && v2.tag in m2.signatures.value
    requires m1.signatures.value[v1.tag] == m2.signatures.value[v2.tag]
    ensures SameKey(v1.publicJwk, v2.publicJwk)
    ensures Upper(parts1.httpMethod) == Upper(parts2.httpMethod) && parts1.authority == parts2.authority && parts1.path == parts2.path
    ensures var covered := m1.signatures.value[v1.tag].base.params.covered;
            forall name :: name in covered ==> Seen(m1, parts1, name) == Seen(m2, parts2, name)
  {
    VerificationExactly(m1, parts1, options1, cnf1, now1, v1);
    VerificationExactly(m2, parts2, options2, cnf2, now2, v2);
    var base := m1.signatures.value[v1.tag].base;
    forall name | name in base.params.covered ensures Seen(m1, parts1, name) == Seen(m2, parts2, name) {
      var i :| 0 <= i < |base.params.covered| && base.params.covered[i] == name;
      LineInjective(name, Seen(m1, parts1, name).value, Seen(m2, parts2, name).value);
    }
    assert Seen(m1, parts1, "@method") == Seen(m2, parts2, "@method");
    assert Seen(m1, parts1, "@authority") == Seen(m2, parts2, "@authority");
    assert Seen(m1, parts1, "@path") == Seen(m2, parts2, "@path");
  }

  /** An accepted message is, in everything covered, the one that was signed for, and fresh. */
  lemma AcceptedIsTheSigned(m: Message, parts: Parts, options: VerifyOptions, cnf: string -> Option<Jwk>, now: nat, v: Verified,
                            signer: Jwk, signedParts: Parts, signedKey: string, extras: Extras, created: nat)
    requires Verification(m, parts, options, cnf, now) == Ok(v)
    requires m.signatures.Some? && v.tag in m.signatures.value
    requires m.signatures.value[v.tag] == Signature(signer, SignedBase(signedParts, signedKey, extras, created))
    requires forall i :: 0 <= i < |extras| ==> extras[i].0 !in REQUIRED
    ensures SameKey(signer, v.publicJwk)
    ensures Upper(parts.httpMethod) == Upper(signedParts.httpMethod)
    ensures parts.authority == signedParts.authority && parts.path == signedParts.path
    ensures SIGNATURE_KEY in m.fields && m.fields[SIGNATURE_KEY] == signedKey
    ensures TakenFrom(extras, m.fields)
    ensures InWindow(created, options, now)
  {
    VerificationExactly(m, parts, options, cnf, now, v);
    var base := m.signatures.value[v.tag].base;
    RebuiltExactly(m, parts, base.params.covered, base.lines);
    SeesAllSigned(m.fields, parts, m.fields[SIGNATURE_KEY], signedParts, signedKey, extras, created);
  }

  lemma SeesAllSigned(fields: Fields, parts: Parts, keyHeader: string, signedParts: Parts, signedKey: string, extras: Extras, created: nat)
    requires var base := SignedBase(signedParts, signedKey, extras, created);
             Rebuilt(fields, parts, keyHeader, base.params.covered) == Ok(base.lines)
    requires forall i :: 0 <= i < |extras| ==> extras[i].0 !in REQUIRED
    ensures Upper(parts.httpMethod) == Upper(signedParts.httpMethod)
    ensures parts.authority == signedParts.authority && parts.path == signedParts.path && keyHeader == signedKey
    ensures TakenFrom(extras, fields)
  {
    var covered := SignedBase(signedParts, signedKey, extras, created).params.covered;
    SeesSignedValue(fields, parts, keyHeader, signedParts, signedKey, extras, created, 0);
    SeesSignedValue(fields, parts, keyHeader, signedParts, signedKey, extras, created, 1);
    SeesSignedValue(fields, parts, keyHeader, signedParts, signedKey, extras, created, 2);
    SeesSignedValue(fields, parts, keyHeader, signedParts, signedKey, extras, created, 3);
    assert covered[0] == "@method" && covered[1] == "@authority" && covered[2] == "@path" && covered[3] == SIGNATURE_KEY;
    forall i | 0 <= i < |extras| ensures extras[i].0 in fields && fields[extras[i].0] == extras[i].1 {
      SeesSignedValue(fields, parts, keyHeader, signedParts, signedKey, extras, created, i + 4);
      assert covered[i + 4] == extras[i].0;
      SeesField(fields, parts, keyHeader, extras[i].0, extras[i].1);
    }
  }

  lemma SeesField(fields: Fields, parts: Parts, keyHeader: string, name: string, value: string)
    requires name !in REQUIRED && ComponentValue(fields, parts, keyHeader, name) == Ok(value)
    ensures name in fields && fields[name] == value
  {
    assert REQUIRED[0] == "@method" && REQUIRED[1] == "@authority" && REQUIRED[2] == "@path" && REQUIRED[3] == SIGNATURE_KEY;
  }

  // ----- the components this protocol adds -----

  function ExtraFor(fields: Fields, name: string): (r: Extras)
    requires name in fields
  {
    [(name, fields[name])]
  }

  /** The extra components of a request: an `AAuth` credential and the mission, when present. */
  function SignExtras(fields: Fields): (r: Extras) {
    (if "authorization" in fields && "AAuth " <= fields["authorization"] then ExtraFor(fields, "authorization") else [])
    + (if "aauth-mission" in fields then ExtraFor(fields, "aauth-mission") else [])
  }

  lemma SignExtrasAreTaken(fields: Fields)
    ensures TakenFrom(SignExtras(fields), fields) && Distinct(ExtraNames(SignExtras(fields)))
    ensures "authorization" in fields && "AAuth " <= fields["authorization"] ==> "authorization" in ExtraNames(SignExtras(fields))
  {
    if "authorization" in fields && "AAuth " <= fields["authorization"] {
      assert ExtraNames(SignExtras(fields))[0] == "authorization";
    }
  }

  /** What is signed besides the required components: an `AAuth` credential, and the mission; nothing else. */
  lemma SignExtrasExactly(fields: Fields, name: string)
    ensures name in ExtraNames(SignExtras(fields)) <==>
              || (name == "authorization" && name in fields && "AAuth " <= fields[name])
              || (name == "aauth-mission" && name in fields)
  {
    var extras := SignExtras(fields);
    var names := ExtraNames(extras);
    var credential := "authorization" in fields && "AAuth " <= fields["authorization"];
    if credential {
      assert names[0] == "authorization";
    }
    if "aauth-mission" in fields {
      assert names[|names| - 1] == "aauth-mission";
    }
    assert forall i :: 0 <= i < |names| ==>
      (names[i] == "authorization" && credential) || (names[i] == "aauth-mission" && "aauth-mission" in fields);
  }

  /** The parameters under the label the verifier looks for. */
  function ParamsFor(m: Message, options: VerifyOptions): (r: Option<Params>) {
    var tag := if options.tag.Some? then options.tag.value else "sig";
    if m.inputs.Some? && tag in m.inputs.value then Some(m.inputs.value[tag]) else None
  }

  /** What a refusal says is so. */
  lemma RefusedBecause(m: Message, parts: Parts, options: VerifyOptions, cnf: string -> Option<Jwk>, now: nat, e: SignatureError)
    requires Verification(m, parts, options, cnf, now) == Err(e)
    ensures match e
            case MissingSignatureKey => SIGNATURE_KEY !in m.fields
            case MissingSignatureInput => m.inputs.None?
            case MissingSignature => m.signatures.None?
            case MissingComponent(name) => ParamsFor(m, options).Some? && (name == "header" || name !in ParamsFor(m, options).value.covered)
            case MissingCreated => ParamsFor(m, options).Some? && ParamsFor(m, options).value.created.None?
            case CreatedInFuture =>
              ParamsFor(m, options).Some? && ParamsFor(m, options).value.created.Some?
              && ParamsFor(m, options).value.created.value > now + options.clockSkew
            case SignatureExpired =>
              ParamsFor(m, options).Some? && ParamsFor(m, options).value.created.Some?
              && now > ParamsFor(m, options).value.created.value + options.maxAge + options.clockSkew
            case AuthorizationHeaderMissing =>
              "authorization" !in m.fields && ParamsFor(m, options).Some? && "authorization" in ParamsFor(m, options).value.covered
            case _ => true
  {
    var tag := if options.tag.Some? then options.tag.value else "sig";
    if SIGNATURE_KEY in m.fields && m.inputs.Some? && m.signatures.Some? && tag in m.inputs.value && tag in m.signatures.value {
      var key := FromHeader(m.fields[SIGNATURE_KEY], tag);
      if key.Ok? {
        RefusedWithBecause(m, parts, options, cnf, now, tag, key.value, e);
      }
    }
  }

  lemma RefusedWithBecause(
    m: Message, parts: Parts, options: VerifyOptions, cnf: string -> Option<Jwk>, now: nat, tag: string, key: SignatureKey, e: SignatureError)
    requires SIGNATURE_KEY in m.fields && m.inputs.Some? && m.signatures.Some? && tag in m.inputs.value && tag in m.signatures.value
    requires VerifiedWith(m, parts, options, cnf, now, tag, key) == Err(e)
    ensures var params := m.inputs.value[tag];
            match e
            case MissingSignatureKey => false
            case MissingSignatureInput => false
            case MissingSignature => false
            case MissingComponent(name) => name == "header" || name !in params.covered
            case MissingCreated => params.created.None?
            case CreatedInFuture => params.created.Some? && params.created.value > now + options.clockSkew
            case SignatureExpired => params.created.Some? && now > params.created.value + options.maxAge + options.clockSkew
            case AuthorizationHeaderMissing => "authorization" !in m.fields && "authorization" in params.covered
            case _ => true
  {
    var params := m.inputs.value[tag];
    FirstMissingIsMissing(REQUIRED, params.covered);
    if Rebuilt(m.fields, parts, m.fields[SIGNATURE_KEY], params.covered).Err? {
      RebuiltStops(m.fields, parts, m.fields[SIGNATURE_KEY], params.covered);
    }
  }

  lemma {:induction false} FirstMissingIsMissing(required: seq<string>, covered: seq<string>)
    ensures FirstMissing(required, covered).Some? ==> FirstMissing(required, covered).value in required && FirstMissing(required, covered).value !in covered
  {
    if required != [] {
      FirstMissingIsMissing(required[1..], covered);
    }
  }

  /** Rebuilding stops at a listed header that is not there. */
  lemma {:induction false} RebuiltStops(fields: Fields, parts: Parts, keyHeader: string, covered: seq<string>)
    requires Rebuilt(fields, parts, keyHeader, covered).Err?
    ensures var e := Rebuilt(fields, parts, keyHeader, covered).error;
            || (e == AuthorizationHeaderMissing && "authorization" !in fields && "authorization" in covered)
            || e == MissingComponent("header")
  {
    var n := |covered| - 1;
    if Rebuilt(fields, parts, keyHeader, covered[..n]).Err? {
      RebuiltStops(fields, parts, keyHeader, covered[..n]);
    }
  }
}
