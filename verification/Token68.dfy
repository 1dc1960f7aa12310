/** Opaque access tokens: the `token68` grammar and the two headers that carry them. */
module Token68 {
  import opened Prelude
  import opened Text

  predicate IsToken68Char(c: char) {
    'a' <= c <= 'z' || 'A' <= c <= 'Z' || '0' <= c <= '9' || c in {'-', '.', '_', '~', '+', '/'}
  }

  /** The check as written: strip every trailing `=`, then look at what is left. */
  predicate IsToken68(s: string) {
    var body := TrimEndChar(s, '=');
    body != "" && forall i :: 0 <= i < |body| ==> IsToken68Char(body[i])
  }

  /** `n` token characters, then only `=`. */
  predicate SplitsAt(s: string, n: nat) {
    1 <= n <= |s| && (forall i :: 0 <= i < n ==> IsToken68Char(s[i])) && forall i :: n <= i < |s| ==> s[i] == '='
  }

  /** The grammar of section 11.2 of RFC 9110: one or more token characters, then any number of `=`. */
  ghost predicate Token68Grammar(s: string) {
    exists n: nat :: SplitsAt(s, n)
  }

  lemma TrimmedLength(s: string, n: nat)
    requires SplitsAt(s, n)
    ensures |TrimEndChar(s, '=')| == n
  {
    var body := TrimEndChar(s, '=');
    assert IsToken68Char(s[n - 1]) && !IsToken68Char('=');
    assert body == "" || s[|body| - 1] == body[|body| - 1];
  }

  lemma Token68IsTheGrammar(s: string)
    ensures IsToken68(s) <==> Token68Grammar(s)
  {
    var body := TrimEndChar(s, '=');
    if IsToken68(s) {
      assert forall i :: 0 <= i < |body| ==> s[i] == body[i];
      assert SplitsAt(s, |body|);
    }
    if Token68Grammar(s) {
      var n: nat :| SplitsAt(s, n);
      TrimmedLength(s, n);
      assert forall i :: 0 <= i < n ==> body[i] == s[i];
    }
  }

  function ParseAccessHeader(value: string): (r: Option<string>)
    ensures r.Some? ==> IsToken68(r.value)
  {
    var trimmed := Trim(value);
    if IsToken68(trimmed) then Some(trimmed) else None
  }

  function ParseCredential(authorization: string): (r: Option<string>)
    ensures r.Some? ==> IsToken68(r.value)
  {
    var trimmed := Trim(authorization);
    if !("AAuth " <= trimmed) then None
    else
      var token := trimmed[|"AAuth "|..];
      if IsToken68(token) then Some(token) else None
  }

  function CredentialFor(token: string): (r: string) { "AAuth " + token }

  lemma Token68HasNoSpaceAtEnds(t: string)
    requires IsToken68(t)
    ensures t != "" && !IsSpace(t[0]) && !IsSpace(t[|t| - 1])
  {
    var body := TrimEndChar(t, '=');
    assert t[0] == body[0] && IsToken68Char(body[0]);
    if |body| == |t| {
      assert body[|t| - 1] == t[|t| - 1] && IsToken68Char(body[|t| - 1]);
    } else {
      assert t[|t| - 1] == '=';
    }
  }

  lemma AccessHeaderReads(t: string)
    requires IsToken68(t)
    ensures ParseAccessHeader(t) == Some(t)
  {
    Token68HasNoSpaceAtEnds(t);
  }

  lemma CredentialText(t: string)
    requires t != "" && !IsSpace(t[|t| - 1])
    ensures Trim(CredentialFor(t)) == CredentialFor(t) && CredentialFor(t)[|"AAuth "|..] == t
  {
    var a := CredentialFor(t);
    assert a[0] == 'A' && a[|a| - 1] == t[|t| - 1];
  }

  /** Every token68 survives being granted in `AAuth-Access` and presented in `Authorization`. */
  lemma GrantedThenPresented(t: string)
    requires IsToken68(t)
    ensures ParseAccessHeader(t) == Some(t)
    ensures ParseCredential(CredentialFor(t)) == Some(t)
  {
    Token68HasNoSpaceAtEnds(t);
    AccessHeaderReads(t);
    CredentialText(t);
  }

  /** Exactly the scheme and a token68 is a credential, give or take surrounding space. */
  lemma AcceptedExactly(value: string, t: string)
    ensures ParseCredential(value) == Some(t) <==> Token68Grammar(t) && Trim(value) == "AAuth " + t
  {
    Token68IsTheGrammar(t);
    var trimmed := Trim(value);
    assert ("AAuth " + t)[|"AAuth "|..] == t;
    if "AAuth " <= trimmed {
      assert trimmed == "AAuth " + trimmed[|"AAuth "|..];
    }
  }

  /** Nothing else is accepted: an accepted header is a token68, give or take surrounding space. */
  lemma AcceptedIsToken68(value: string)
    ensures ParseAccessHeader(value).Some? <==> Token68Grammar(Trim(value))
    ensures ParseCredential(value).Some? <==>
              exists t :: Token68Grammar(t) && Trim(value) == CredentialFor(t)
  {
    Token68IsTheGrammar(Trim(value));
    var trimmed := Trim(value);
    if ParseCredential(value).Some? {
      var t := trimmed[|"AAuth "|..];
      Token68IsTheGrammar(t);
      assert trimmed == CredentialFor(t);
    }
    if exists t :: Token68Grammar(t) && trimmed == CredentialFor(t) {
      var t :| Token68Grammar(t) && trimmed == CredentialFor(t);
      Token68IsTheGrammar(t);
      assert trimmed[|"AAuth "|..] == t;
    }
  }
}
