/**
 Interaction codes: 5 random bytes written as 8 Crockford base-32 symbols `XXXX-XXXX`,
 and the canonical form a user-presented code is looked up by.
 */
module InteractionCode {
  import opened Prelude
  import opened Text

  const CROCKFORD32 := "0123456789ABCDEFGHJKMNPQRSTVWXYZ"

  type Byte = x: int | 0 <= x < 256

  /** The five random bytes behind one code. */
  type CodeBytes = buf: seq<Byte> | |buf| == 5 witness [0, 0, 0, 0, 0]

  // ----- positional notation in the two bases used: bytes and symbols -----

  type Base = b: nat | b == 32 || b == 256 witness 32

  function Pow(b: Base, k: nat): (r: nat) {
    if k == 0 then 1 else b * Pow(b, k - 1)
  }

  predicate AreDigits(b: Base, digits: seq<nat>) {
    forall i :: 0 <= i < |digits| ==> digits[i] < b
  }

  /** The number a digit string denotes, most significant digit first. */
  function Value(b: Base, digits: seq<nat>): (r: nat) {
    if digits == [] then 0 else Value(b, digits[..|digits| - 1]) * b + digits[|digits| - 1]
  }

  function Digits(b: Base, n: nat, k: nat): (r: seq<nat>)
    ensures |r| == k && AreDigits(b, r)
  {
    if k == 0 then [] else Digits(b, n / b, k - 1) + [n % b]
  }

  lemma Quotient(b: Base, q: nat, d: nat)
    requires d < b
    ensures (q * b + d) / b == q && (q * b + d) % b == d
  {
    if b == 32 {
    } else {
    }
  }

  lemma {:induction false} DigitsOfValue(b: Base, digits: seq<nat>)
    requires AreDigits(b, digits)
    ensures Digits(b, Value(b, digits), |digits|) == digits
  {
    if digits != [] {
      var k := |digits| - 1;
      DigitsOfValue(b, digits[..k]);
      Quotient(b, Value(b, digits[..k]), digits[k]);
    }
  }

  lemma QuotientBelow(b: Base, n: nat, p: nat)
    requires n < b * p
    ensures n / b < p
  {
    if b == 32 { } else { }
  }

  lemma Recombine(b: Base, n: nat)
    ensures n / b * b + n % b == n
  {
    if b == 32 { } else { }
  }

  lemma ValueOfLast(b: Base, digits: seq<nat>, d: nat)
    ensures Value(b, digits + [d]) == Value(b, digits) * b + d
  {
    assert (digits + [d])[..|digits|] == digits;
  }

  lemma {:induction false} ValueOfDigits(b: Base, n: nat, k: nat)
    requires n < Pow(b, k)
    ensures Value(b, Digits(b, n, k)) == n
  {
    if k > 0 {
      QuotientBelow(b, n, Pow(b, k - 1));
      ValueOfDigits(b, n / b, k - 1);
      ValueOfLast(b, Digits(b, n / b, k - 1), n % b);
      Recombine(b, n);
    }
  }

  lemma {:induction false} ValueBound(b: Base, digits: seq<nat>)
    requires AreDigits(b, digits)
    ensures Value(b, digits) < Pow(b, |digits|)
  {
    if digits != [] {
      ValueBound(b, digits[..|digits| - 1]);
      if b == 32 { } else { }
    }
  }

  /** The operator `>>`. */
  function ShiftRight(n: nat, bits: nat): (r: nat) {
    if bits == 0 then n else ShiftRight(n / 2, bits - 1)
  }

  lemma ShiftFive(n: nat, bits: nat)
    ensures ShiftRight(n, bits + 5) == ShiftRight(n / 32, bits)
  {
    assert ShiftRight(n, bits + 5) == ShiftRight(n / 2, bits + 4) == ShiftRight(n / 2 / 2, bits + 3);
    assert ShiftRight(n / 2 / 2, bits + 3) == ShiftRight(n / 2 / 2 / 2, bits + 2);
    assert ShiftRight(n / 2 / 2 / 2, bits + 2) == ShiftRight(n / 2 / 2 / 2 / 2, bits + 1);
    assert n / 2 / 2 / 2 / 2 / 2 == n / 32;
  }

  /** Shifting right by five bits per place and masking reads off one base-32 digit. */
  lemma {:induction false} DigitAt(n: nat, k: nat, i: nat)
    requires i < k
    ensures Digits(32, n, k)[i] == ShiftRight(n, (k - 1 - i) * 5) % 32
  {
    if i < k - 1 {
      DigitAt(n / 32, k - 1, i);
      ShiftFive(n, (k - 2 - i) * 5);
    }
  }

  // ----- generation -----

  /** The code for a 40-bit number: symbol `i` is `(n >> ((7 - i) * 5)) & 31`. */
  function CodeOfNumber(n: nat): (r: string)
    ensures |r| == 9
  {
    var raw := seq(8, i requires 0 <= i < 8 => CROCKFORD32[ShiftRight(n, (7 - i) * 5) % 32]);
    raw[..4] + "-" + raw[4..]
  }

  function CodeOfBytes(buf: CodeBytes): (r: string)
  {
    CodeOfNumber(Value(256, buf))
  }

  method GenerateCode(buf: CodeBytes) returns (code: string)
    ensures code == CodeOfBytes(buf)
    ensures IsCode(code)
  {
    var n: nat := 0;
    for i := 0 to |buf|
      invariant n == Value(256, buf[..i])
    {
      assert buf[..i + 1][..i] == buf[..i];
      n := n * 256 + buf[i];
    }
    assert buf[..5] == buf;
    code := CodeOfNumber(n);
    CodeShape(n);
  }

  /** The alphabet's characters: no I, L, O or U. */
  predicate IsSymbol(c: char) {
    || '0' <= c <= '9' || 'A' <= c <= 'H' || 'J' <= c <= 'K'
    || 'M' <= c <= 'N' || 'P' <= c <= 'T' || 'V' <= c <= 'Z'
  }

  function SymbolValue(c: char): (r: nat)
    ensures IsSymbol(c) ==> r < 32
  {
    if '0' <= c <= '9' then c as int - '0' as int
    else if 'A' <= c <= 'H' then c as int - 'A' as int + 10
    else if 'J' <= c <= 'K' then c as int - 'J' as int + 18
    else if 'M' <= c <= 'N' then c as int - 'M' as int + 20
    else if 'P' <= c <= 'T' then c as int - 'P' as int + 22
    else if 'V' <= c <= 'Z' then c as int - 'V' as int + 27
    else 0
  }

  lemma SymbolAt(v: nat)
    requires v < 32
    ensures IsSymbol(CROCKFORD32[v]) && SymbolValue(CROCKFORD32[v]) == v
  {
  }

  lemma SymbolFor(c: char)
    requires IsSymbol(c)
    ensures CROCKFORD32[SymbolValue(c)] == c
  {
    SymbolAt(SymbolValue(c));
  }

  predicate IsCode(c: string) {
    |c| == 9 && c[4] == '-' && forall i :: 0 <= i < 9 && i != 4 ==> IsSymbol(c[i])
  }

  function Symbols(c: string): (r: string)
    requires |c| == 9
    ensures |r| == 8
  {
    c[..4] + c[5..]
  }

  lemma SymbolOfCode(n: nat, i: nat)
    requires i < 8
    ensures Symbols(CodeOfNumber(n))[i] == CROCKFORD32[Digits(32, n, 8)[i]]
    ensures IsSymbol(Symbols(CodeOfNumber(n))[i])
  {
    DigitAt(n, 8, i);
    SymbolAt(Digits(32, n, 8)[i]);
  }

  lemma CodeShape(n: nat)
    ensures IsCode(CodeOfNumber(n))
    ensures forall i :: 0 <= i < 8 ==> Symbols(CodeOfNumber(n))[i] == CROCKFORD32[Digits(32, n, 8)[i]]
  {
    var c := CodeOfNumber(n);
    forall i | 0 <= i < 8 ensures Symbols(c)[i] == CROCKFORD32[Digits(32, n, 8)[i]] && IsSymbol(Symbols(c)[i]) {
      SymbolOfCode(n, i);
    }
    forall i | 0 <= i < 9 && i != 4 ensures IsSymbol(c[i]) {
      assert c[i] == Symbols(c)[if i < 4 then i else i - 1];
    }
  }

  // ----- the inverse -----

  function DecodeNumber(c: string): (r: nat)
    requires |c| == 9
  {
    Value(32, seq(8, i requires 0 <= i < 8 => SymbolValue(Symbols(c)[i])))
  }

  function DecodeCode(c: string): (r: CodeBytes)
    requires |c| == 9
  {
    Digits(256, DecodeNumber(c), 5)
  }

  lemma SameCapacity()
    ensures Pow(256, 5) == Pow(32, 8)
  {
    assert Pow(256, 5) == 256 * (256 * (256 * (256 * (256 * Pow(256, 0)))));
    assert Pow(32, 8) == 32 * (32 * (32 * (32 * Pow(32, 4))));
    assert Pow(32, 4) == 32 * (32 * (32 * (32 * Pow(32, 0))));
  }

  lemma DecodeOfCode(n: nat)
    requires n < Pow(32, 8)
    ensures DecodeNumber(CodeOfNumber(n)) == n
  {
    CodeShape(n);
    var c := CodeOfNumber(n);
    var ds := seq(8, i requires 0 <= i < 8 => SymbolValue(Symbols(c)[i]));
    forall i | 0 <= i < 8 ensures ds[i] == Digits(32, n, 8)[i] {
      SymbolAt(Digits(32, n, 8)[i]);
    }
    assert ds == Digits(32, n, 8);
    ValueOfDigits(32, n, 8);
  }

  /** Different bytes give different codes: the bytes can be read back. */
  lemma BytesRoundTrip(buf: CodeBytes)
    ensures DecodeCode(CodeOfBytes(buf)) == buf
  {
    ValueBound(256, buf);
    SameCapacity();
    DecodeOfCode(Value(256, buf));
    DigitsOfValue(256, buf);
  }

  lemma SameSymbols(a: string, b: string)
    requires |a| == 9 && |b| == 9 && a[4] == b[4]
    requires forall i :: 0 <= i < 8 ==> Symbols(a)[i] == Symbols(b)[i]
    ensures a == b
  {
    forall i | 0 <= i < 9 ensures a[i] == b[i] {
      if i != 4 {
        var j := if i < 4 then i else i - 1;
        assert a[i] == Symbols(a)[j] && b[i] == Symbols(b)[j];
      }
    }
  }

  /** Every `XXXX-XXXX` over the alphabet is generated, by exactly the bytes it decodes to. */
  lemma CodeRoundTrip(c: string)
    requires IsCode(c)
    ensures CodeOfBytes(DecodeCode(c)) == c
  {
    var ds: seq<nat> := seq(8, i requires 0 <= i < 8 => SymbolValue(Symbols(c)[i]));
    forall i | 0 <= i < 8 ensures ds[i] < 32 && CROCKFORD32[ds[i]] == Symbols(c)[i] {
      assert IsSymbol(c[if i < 4 then i else i + 1]);
      SymbolFor(Symbols(c)[i]);
    }
    var n := Value(32, ds);
    ValueBound(32, ds);
    SameCapacity();
    ValueOfDigits(256, n, 5);
    DigitsOfValue(32, ds);
    CodeShape(n);
    SameSymbols(CodeOfNumber(n), c);
  }

  // ----- canonical form -----

  predicate Ascii(s: string) {
    forall i :: 0 <= i < |s| ==> s[i] < '\U{80}'
  }

  function Strip(s: string, c: char): (r: string)
    ensures c !in r
    ensures |r| <= |s|
    ensures forall x :: x in r ==> x in s
  {
    if s == [] then [] else if s[0] == c then Strip(s[1..], c) else [s[0]] + Strip(s[1..], c)
  }

  function Replace(s: string, from: set<char>, to: char): (r: string)
    ensures |r| == |s|
    ensures forall i :: 0 <= i < |s| ==> r[i] == if s[i] in from then to else s[i]
  {
    seq(|s|, i requires 0 <= i < |s| => if s[i] in from then to else s[i])
  }

  function Bare(code: string): (r: string)
    ensures |r| == |Strip(code, '-')|
    ensures forall i :: 0 <= i < |r| ==> r[i] == FoldChar(Strip(code, '-')[i])
  {
    Replace(Replace(Upper(Strip(code, '-')), {'I', 'L'}, '1'), {'O'}, '0')
  }

  function FoldChar(x: char): (r: char) {
    var u := UpperChar(x);
    if u == 'I' || u == 'L' then '1' else if u == 'O' then '0' else u
  }

  function Min(a: nat, b: nat): (r: nat) { if a < b then a else b }

  function Canonicalize(code: string): (r: string) {
    var bare := Bare(code);
    var four := Min(4, |bare|);
    bare[..four] + "-" + bare[four..Min(8, |bare|)]
  }

  lemma {:induction false} StripConcat(a: string, b: string, c: char)
    ensures Strip(a + b, c) == Strip(a, c) + Strip(b, c)
  {
    if a == [] {
      assert a + b == b;
    } else {
      assert (a + b)[1..] == a[1..] + b;
      StripConcat(a[1..], b, c);
    }
  }

  lemma {:induction false} StripNothing(a: string, c: char)
    requires c !in a
    ensures Strip(a, c) == a
  {
    if a != [] { StripNothing(a[1..], c); }
  }

  lemma StripOfHyphenated(a: string, b: string)
    requires '-' !in a && '-' !in b
    ensures Strip(a + "-" + b, '-') == a + b
  {
    var tail := "-" + b;
    assert a + "-" + b == a + tail;
    StripConcat(a, tail, '-');
    StripNothing(a, '-');
    assert tail[1..] == b;
    StripNothing(b, '-');
  }

  lemma BareIsFolded(code: string)
    ensures forall c :: c in Bare(code) ==> c != '-' && FoldChar(c) == c
  {
    forall c | c in Bare(code) ensures c != '-' && FoldChar(c) == c {
      var i :| 0 <= i < |Bare(code)| && Bare(code)[i] == c;
      assert Strip(code, '-')[i] in Strip(code, '-');
    }
  }

  lemma SameBareStart(x: string, y: string)
    requires Bare(x) == Bare(y)[..Min(8, |Bare(y)|)]
    ensures Canonicalize(x) == Canonicalize(y)
  {
    var bare := Bare(y);
    var four, eight := Min(4, |bare|), Min(8, |bare|);
    assert Bare(x)[..four] == bare[..four];
    assert Bare(x)[four..eight] == bare[four..eight];
  }

  /** The canonical form is a fixed point, for presented text of any length. */
  lemma CanonicalizeIdempotent(code: string)
    requires Ascii(code)
    ensures Canonicalize(Canonicalize(code)) == Canonicalize(code)
  {
    var bare := Bare(code);
    var start := bare[..Min(8, |bare|)];
    var a, b := bare[..Min(4, |bare|)], bare[Min(4, |bare|)..Min(8, |bare|)];
    BareIsFolded(code);
    StripOfHyphenated(a, b);
    assert a + b == start;
    assert forall i :: 0 <= i < |start| ==> start[i] in bare;
    assert Bare(a + "-" + b) == start;
    SameBareStart(a + "-" + b, code);
  }

  /** `x` is a way to write the symbol `s`. */
  predicate Variant(x: char, s: char) {
    || x == s
    || x == LowerChar(s)
    || (s == '1' && x in {'I', 'i', 'L', 'l'})
    || (s == '0' && x in {'O', 'o'})
  }

  /** `r` writes the code `c` with any variant per symbol and hyphens anywhere or nowhere. */
  predicate Respells(r: string, c: string)
    decreases |r| + |c|
  {
    if r != [] && r[0] == '-' then Respells(r[1..], c)
    else if c != [] && c[0] == '-' then Respells(r, c[1..])
    else if r == [] || c == [] then r == c
    else Variant(r[0], c[0]) && Respells(r[1..], c[1..])
  }

  predicate PointwiseVariant(a: string, b: string) {
    |a| == |b| && forall i :: 0 <= i < |a| ==> Variant(a[i], b[i])
  }

  lemma {:induction false} RespellsIsPointwise(r: string, c: string)
    ensures Respells(r, c) <==> PointwiseVariant(Strip(r, '-'), Strip(c, '-'))
    decreases |r| + |c|
  {
    if r != [] && r[0] == '-' {
      RespellsIsPointwise(r[1..], c);
    } else if c != [] && c[0] == '-' {
      RespellsIsPointwise(r, c[1..]);
    } else if r != [] && c != [] {
      RespellsIsPointwise(r[1..], c[1..]);
      var a, b := Strip(r, '-'), Strip(c, '-');
      assert a[0] == r[0] && b[0] == c[0] && a[1..] == Strip(r[1..], '-') && b[1..] == Strip(c[1..], '-');
      assert PointwiseVariant(a, b) <==> Variant(a[0], b[0]) && PointwiseVariant(a[1..], b[1..]) by {
        if Variant(a[0], b[0]) && PointwiseVariant(a[1..], b[1..]) {
          forall i | 0 <= i < |a| ensures Variant(a[i], b[i]) {
            if i > 0 { assert Variant(a[1..][i - 1], b[1..][i - 1]); }
          }
        }
        if PointwiseVariant(a, b) {
          forall i | 0 <= i < |a| - 1 ensures Variant(a[1..][i], b[1..][i]) {
            assert Variant(a[i + 1], b[i + 1]);
          }
        }
      }
    }
  }

  lemma VariantIsFold(x: char, s: char)
    requires x < '\U{80}' && IsSymbol(s)
    ensures Variant(x, s) <==> FoldChar(x) == s
  {
  }

  lemma CodeParts(c: string)
    requires IsCode(c)
    ensures c == c[..4] + "-" + c[5..] && Symbols(c) == Strip(c, '-')
    ensures forall i :: 0 <= i < 8 ==> IsSymbol(Symbols(c)[i])
  {
    assert c == c[..4] + "-" + c[5..];
    assert forall i :: 0 <= i < 9 && i != 4 ==> IsSymbol(c[i]) && c[i] != '-';
    StripOfHyphenated(c[..4], c[5..]);
    assert forall i :: 0 <= i < 8 ==> Symbols(c)[i] == c[if i < 4 then i else i + 1];
  }

  /** Text of eight symbols with a hyphen in the middle equals a code exactly when the symbols do. */
  lemma HyphenatedEquals(bare: string, c: string)
    requires |bare| >= 8 && IsCode(c)
    ensures bare[..4] + "-" + bare[4..8] == c <==> bare[..8] == Symbols(c)
  {
    CodeParts(c);
    var f := bare[..4] + "-" + bare[4..8];
    assert f[..4] == bare[..4] && f[5..] == bare[4..8];
    assert bare[..8] == bare[..4] + bare[4..8];
    assert Symbols(c)[..4] == c[..4] && Symbols(c)[4..] == c[5..];
  }

  lemma SymbolsVary(r: string, c: string)
    requires Ascii(r) && IsCode(c) && |Strip(r, '-')| >= 8
    ensures PointwiseVariant(Strip(r, '-')[..8], Symbols(c)) <==> Bare(r)[..8] == Symbols(c)
  {
    var s, cs := Strip(r, '-'), Symbols(c);
    CodeParts(c);
    forall i | 0 <= i < 8 ensures Variant(s[..8][i], cs[i]) <==> Bare(r)[i] == cs[i] {
      assert s[i] in r;
      VariantIsFold(s[i], cs[i]);
    }
    assert Bare(r)[..8] == cs <==> forall i :: 0 <= i < 8 ==> Bare(r)[i] == cs[i];
    assert PointwiseVariant(s[..8], cs) <==> forall i :: 0 <= i < 8 ==> Variant(s[..8][i], cs[i]);
  }

  /**
   Lookup compares the canonical form with the stored code. It matches exactly the
   respellings of the code, where whatever follows the eighth symbol is ignored.
   */
  lemma CanonicalizeMatches(r: string, c: string)
    requires Ascii(r) && IsCode(c)
    ensures Canonicalize(r) == c <==> |Strip(r, '-')| >= 8 && Respells(Strip(r, '-')[..8], c)
  {
    var s := Strip(r, '-');
    CodeParts(c);
    if |s| >= 8 {
      StripNothing(s[..8], '-');
      RespellsIsPointwise(s[..8], c);
      SymbolsVary(r, c);
      HyphenatedEquals(Bare(r), c);
    }
  }

  /** Every way of writing a generated code is stored and looked up as that code. */
  lemma RespellingFindsCode(r: string, c: string)
    requires Ascii(r) && IsCode(c) && Respells(r, c)
    ensures Canonicalize(r) == c
  {
    RespellsIsPointwise(r, c);
    assert c == c[..4] + "-" + c[5..];
    assert forall i :: 0 <= i < 9 && i != 4 ==> IsSymbol(c[i]) && c[i] != '-';
    StripOfHyphenated(c[..4], c[5..]);
    var s := Strip(r, '-');
    assert s[..8] == s;
    StripNothing(s, '-');
    RespellsIsPointwise(s, c);
    CanonicalizeMatches(r, c);
  }

  lemma CodeRespellsItself(c: string)
    requires IsCode(c)
    ensures Canonicalize(c) == c
  {
    forall i | 0 <= i < |c| ensures c[i] < '\U{80}' {
      if i != 4 { assert IsSymbol(c[i]); }
    }
    RespellsIsPointwise(c, c);
    RespellingFindsCode(c, c);
  }

  /** Text after a complete code does not stop it from being found. */
  lemma TrailingTextIgnored(c: string, extra: string)
    requires IsCode(c) && Ascii(extra)
    ensures Canonicalize(c + extra) == c
  {
    forall i | 0 <= i < |c| ensures c[i] < '\U{80}' {
      if i != 4 { assert IsSymbol(c[i]); }
    }
    assert Ascii(c + extra) by {
      forall i | 0 <= i < |c + extra| ensures (c + extra)[i] < '\U{80}' {
        if i >= |c| { assert (c + extra)[i] == extra[i - |c|]; }
      }
    }
    StripConcat(c, extra, '-');
    assert c == c[..4] + "-" + c[5..];
    assert forall i :: 0 <= i < 9 && i != 4 ==> IsSymbol(c[i]) && c[i] != '-';
    StripOfHyphenated(c[..4], c[5..]);
    var s := Strip(c, '-');
    assert Strip(c + extra, '-')[..8] == s;
    StripNothing(s, '-');
    RespellsIsPointwise(s, c);
    CanonicalizeMatches(c + extra, c);
  }
}
