/**
 The string operations the codecs are written with: first occurrence, splitting,
 trimming and joining, each with the facts the round trips need.
 Strings are sequences of characters; an index is a character position.
 */
module Text {
  import opened Prelude

  /** `p` stands in `s` at position `i`. */
  predicate OccursAt(s: string, p: string, i: nat) {
    i + |p| <= |s| && s[i..i + |p|] == p
  }

  predicate EndsWith(s: string, p: string) {
    |p| <= |s| && s[|s| - |p|..] == p
  }

  function FindFrom(s: string, p: string, i: nat): (r: Option<nat>)
    requires i <= |s|
    ensures r.Some? ==> i <= r.value && OccursAt(s, p, r.value)
    ensures r.Some? ==> forall j: nat :: i <= j < r.value ==> !OccursAt(s, p, j)
    ensures r.None? ==> forall j: nat :: i <= j ==> !OccursAt(s, p, j)
    decreases |s| - i
  {
    if OccursAt(s, p, i) then Some(i)
    else if i == |s| then None
    else FindFrom(s, p, i + 1)
  }

  /** The first position of `p` in `s`. */
  function Find(s: string, p: string): (r: Option<nat>)
    ensures r.Some? ==> OccursAt(s, p, r.value)
    ensures r.Some? ==> forall j: nat :: j < r.value ==> !OccursAt(s, p, j)
    ensures r.None? ==> forall j: nat :: !OccursAt(s, p, j)
  {
    FindFrom(s, p, 0)
  }

  /** The first position of one character. */
  function IndexOf(s: string, c: char): (r: Option<nat>)
    ensures r.None? <==> c !in s
    ensures r.Some? ==> r.value < |s| && s[r.value] == c && c !in s[..r.value]
    ensures r.Some? ==> forall j :: 0 <= j < r.value ==> s[j] != c
  {
    if s == [] then None
    else if s[0] == c then Some(0)
    else match IndexOf(s[1..], c)
      case None => None
      case Some(i) => assert s[..i + 1] == [s[0]] + s[1..][..i]; Some(i + 1)
  }

  lemma IndexOfPrefix(a: string, c: char, b: string)
    requires c !in a
    ensures IndexOf(a + [c] + b, c) == Some(|a|)
  {
    var s := a + [c] + b;
    assert s[|a|] == c;
    assert forall j :: 0 <= j < |a| ==> s[j] == a[j];
  }

  /** The text before the first `c`, or all of it (`split(c).next()`). */
  function Before(s: string, c: char): (r: string)
    ensures c !in r
    ensures r <= s
    ensures |r| < |s| ==> s[|r|] == c
  {
    match IndexOf(s, c)
    case None => s
    case Some(i) => s[..i]
  }

  lemma BeforePrefix(a: string, b: string, c: char)
    requires c !in a
    requires b == "" || b[0] == c
    ensures Before(a + b, c) == a
  {
    if b == "" {
      assert a + b == a;
    } else {
      assert a + b == a + [c] + b[1..];
      IndexOfPrefix(a, c, b[1..]);
    }
  }

  /** All pieces between separators (`split(c)`). */
  function Split(s: string, c: char): (r: seq<string>)
    ensures |r| >= 1
  {
    match IndexOf(s, c)
    case None => [s]
    case Some(i) => [s[..i]] + Split(s[i + 1..], c)
  }

  lemma SplitPrefix(a: string, c: char, b: string)
    requires c !in a
    ensures Split(a + [c] + b, c) == [a] + Split(b, c)
  {
    IndexOfPrefix(a, c, b);
    var s := a + [c] + b;
    assert s[..|a|] == a && s[|a| + 1..] == b;
  }

  function Join(parts: seq<string>, sep: string): (r: string)
  {
    if |parts| == 0 then ""
    else if |parts| == 1 then parts[0]
    else parts[0] + sep + Join(parts[1..], sep)
  }

  /** Splitting on one character undoes joining with it. */
  lemma JoinCons(parts: seq<string>, sep: string)
    requires |parts| > 1
    ensures Join(parts, sep) == parts[0] + sep + Join(parts[1..], sep)
  {
  }

  lemma {:induction false} SplitJoin(parts: seq<string>, c: char)
    requires |parts| >= 1
    requires forall i :: 0 <= i < |parts| ==> c !in parts[i]
    ensures Split(Join(parts, [c]), c) == parts
  {
    if |parts| > 1 {
      SplitJoin(parts[1..], c);
      JoinCons(parts, [c]);
      SplitPrefix(parts[0], c, Join(parts[1..], [c]));
    } else {
      SplitOne(parts[0], c);
      assert Join(parts, [c]) == parts[0];
    }
  }

  lemma SplitOne(s: string, c: char)
    requires c !in s
    ensures Split(s, c) == [s]
  {
  }

  /** Unicode White_Space, the set that trimming removes. */
  predicate IsSpace(c: char) {
    var n := c as int;
    9 <= n <= 13 || n == 32 || n == 0x85 || n == 0xA0 || n == 0x1680 || 0x2000 <= n <= 0x200A
    || n == 0x2028 || n == 0x2029 || n == 0x202F || n == 0x205F || n == 0x3000
  }

  function TrimStart(s: string): (r: string)
    ensures r == "" || !IsSpace(r[0])
    ensures s == "" || !IsSpace(s[0]) ==> r == s
  {
    if s != "" && IsSpace(s[0]) then TrimStart(s[1..]) else s
  }

  function TrimEnd(s: string): (r: string)
    ensures r == "" || !IsSpace(r[|r| - 1])
    ensures s == "" || !IsSpace(s[|s| - 1]) ==> r == s
    ensures r <= s
  {
    if s != "" && IsSpace(s[|s| - 1]) then TrimEnd(s[..|s| - 1]) else s
  }

  function Trim(s: string): (r: string)
    ensures s != "" && !IsSpace(s[0]) && !IsSpace(s[|s| - 1]) ==> r == s
  {
    TrimEnd(TrimStart(s))
  }

  /** Remove every trailing `c` (`trim_end_matches`). */
  function TrimEndChar(s: string, c: char): (r: string)
    ensures r <= s
    ensures r == "" || r[|r| - 1] != c
    ensures forall i :: |r| <= i < |s| ==> s[i] == c
  {
    if s != "" && s[|s| - 1] == c then TrimEndChar(s[..|s| - 1], c) else s
  }

  /** Exactly the copies of the character at the end go. */
  lemma {:induction false} TrimEndCharExactly(s: string, tail: string, c: char)
    requires (forall i :: 0 <= i < |tail| ==> tail[i] == c) && (s == "" || s[|s| - 1] != c)
    ensures TrimEndChar(s + tail, c) == s
  {
    if tail == "" {
      assert s + tail == s;
    } else {
      var n := |tail| - 1;
      TrimEndCharExactly(s, tail[..n], c);
      assert (s + tail)[..|s + tail| - 1] == s + tail[..n];
    }
  }

  function TrimStartChar(s: string, c: char): (r: string)
    ensures s == "" || s[0] != c ==> r == s
    ensures r == "" || r[0] != c
  {
    if s != "" && s[0] == c then TrimStartChar(s[1..], c) else s
  }

  function TrimChar(s: string, c: char): (r: string)
    ensures r == "" || (r[0] != c && r[|r| - 1] != c)
  {
    TrimEndChar(TrimStartChar(s, c), c)
  }

  /** Quotes around a value that has none at its own ends are all that is stripped. */
  lemma TrimCharQuoted(v: string, c: char)
    requires v == "" || (v[0] != c && v[|v| - 1] != c)
    ensures TrimChar([c] + v + [c], c) == v
  {
    var s := [c] + v + [c];
    assert s[1..] == v + [c];
    if v == "" {
      assert TrimStartChar([c], c) == TrimStartChar("", c);
    } else {
      assert TrimStartChar(s, c) == v + [c];
      assert (v + [c])[..|v|] == v;
    }
  }

  /** Trimming the end keeps any beginning that ends in something other than space. */
  lemma {:induction false} TrimEndKeeps(p: string, q: string)
    requires p != "" && !IsSpace(p[|p| - 1])
    ensures p <= TrimEnd(p + q)
  {
    if q == "" {
      assert p + q == p;
    } else {
      assert (p + q)[..|p + q| - 1] == p + q[..|q| - 1];
      TrimEndKeeps(p, q[..|q| - 1]);
    }
  }

  /** Trimming and splitting bring in no new characters. */
  lemma {:induction false} TrimStartLacks(s: string, x: char)
    requires x !in s
    ensures x !in TrimStart(s)
  {
    if s != "" && IsSpace(s[0]) { TrimStartLacks(s[1..], x); }
  }

  lemma TrimLacks(s: string, x: char)
    requires x !in s
    ensures x !in Trim(s)
  {
    TrimStartLacks(s, x);
  }

  lemma {:induction false} TrimStartCharLacks(s: string, c: char, x: char)
    requires x !in s
    ensures x !in TrimStartChar(s, c)
  {
    if s != "" && s[0] == c { TrimStartCharLacks(s[1..], c, x); }
  }

  lemma TrimCharLacks(s: string, c: char, x: char)
    requires x !in s
    ensures x !in TrimChar(s, c)
  {
    TrimStartCharLacks(s, c, x);
  }

  lemma {:induction false} SplitLacks(s: string, c: char, x: char)
    requires x == c || x !in s
    ensures forall i :: 0 <= i < |Split(s, c)| ==> x !in Split(s, c)[i]
  {
    match IndexOf(s, c)
    case None =>
    case Some(k) => SplitLacks(s[k + 1..], c, x);
  }

  /** Joined text has no character that neither a part nor the separator has. */
  lemma {:induction false} JoinLacks(parts: seq<string>, sep: string, c: char)
    requires c !in sep && forall i :: 0 <= i < |parts| ==> c !in parts[i]
    ensures c !in Join(parts, sep)
  {
    if |parts| > 1 {
      JoinLacks(parts[1..], sep, c);
    }
  }

  lemma {:induction false} JoinEnds(parts: seq<string>, sep: string)
    requires parts != [] && parts[0] != "" && parts[|parts| - 1] != ""
    requires forall i :: 0 <= i < |parts| ==> parts[i] != ""
    ensures var j := Join(parts, sep);
            j != "" && j[0] == parts[0][0] && j[|j| - 1] == parts[|parts| - 1][|parts[|parts| - 1]| - 1]
  {
    if |parts| > 1 {
      JoinEnds(parts[1..], sep);
    }
  }

  /** The text in front of part `i`. */
  function Preceding(parts: seq<string>, sep: string, i: nat): (r: string)
    requires i <= |parts|
  {
    if i == 0 then "" else Join(parts[..i], sep) + sep
  }

  function Following(parts: seq<string>, sep: string, i: nat): (r: string)
    requires i < |parts|
  {
    if i + 1 == |parts| then "" else sep + Join(parts[i + 1..], sep)
  }

  lemma PrecedingCons(parts: seq<string>, sep: string, i: nat)
    requires 0 < i <= |parts|
    ensures Preceding(parts, sep, i) == parts[0] + sep + Preceding(parts[1..], sep, i - 1)
  {
    assert parts[..i][1..] == parts[1..][..i - 1];
    if i > 1 {
      JoinCons(parts[..i], sep);
      var rest := Join(parts[1..][..i - 1], sep);
      assert parts[0] + sep + rest + sep == parts[0] + sep + (rest + sep);
    } else {
      assert Join(parts[..1], sep) == parts[0];
    }
  }

  lemma FollowingCons(parts: seq<string>, sep: string, i: nat)
    requires 0 < i < |parts|
    ensures Following(parts, sep, i) == Following(parts[1..], sep, i - 1)
  {
    assert parts[1..][i..] == parts[i + 1..];
  }

  lemma Regroup(a: string, b: string, c: string, d: string)
    ensures a + (b + c + d) == (a + b) + c + d
  {
  }

  lemma {:induction false} JoinAround(parts: seq<string>, sep: string, i: nat)
    requires i < |parts|
    ensures Join(parts, sep) == Preceding(parts, sep, i) + parts[i] + Following(parts, sep, i)
  {
    if i > 0 {
      JoinAround(parts[1..], sep, i - 1);
      JoinCons(parts, sep);
      PrecedingCons(parts, sep, i);
      FollowingCons(parts, sep, i);
      Regroup(parts[0] + sep, Preceding(parts[1..], sep, i - 1), parts[i], Following(parts, sep, i));
    } else if |parts| > 1 {
      JoinCons(parts, sep);
      assert "" + parts[0] == parts[0];
      assert parts[0] + sep + Join(parts[1..], sep) == parts[0] + (sep + Join(parts[1..], sep));
    } else {
      assert "" + parts[0] + "" == parts[0];
    }
  }

  function UpperChar(c: char): (r: char) {
    if 'a' <= c <= 'z' then ((c as int) - 32) as char else c
  }

  function LowerChar(c: char): (r: char) {
    if 'A' <= c <= 'Z' then ((c as int) + 32) as char else c
  }

  /** Upper-casing of ASCII text. */
  function Upper(s: string): (r: string)
    ensures |r| == |s|
    ensures forall i :: 0 <= i < |s| ==> r[i] == UpperChar(s[i])
  {
    seq(|s|, i requires 0 <= i < |s| => UpperChar(s[i]))
  }

  // ----- header values -----

  /** Text a header value may hold. */
  predicate HeaderBytes(s: string) {
    forall i :: 0 <= i < |s| ==> s[i] == '\t' || (s[i] >= ' ' && s[i] != '\U{7F}')
  }

  /** Text a receiver can read back out of a header value. */
  predicate Readable(s: string) {
    forall i :: 0 <= i < |s| ==> s[i] == '\t' || ' ' <= s[i] <= '~'
  }

  lemma ReadableIsHeaderBytes(s: string)
    ensures Readable(s) ==> HeaderBytes(s)
  {
  }

  lemma ReadableParts(a: string, b: string)
    ensures Readable(a + b) <==> Readable(a) && Readable(b)
  {
    if Readable(a + b) {
      assert forall i :: 0 <= i < |a| ==> a[i] == (a + b)[i];
      assert forall i :: 0 <= i < |b| ==> b[i] == (a + b)[|a| + i];
    }
  }
}
