/**
 * The string operations the application relies on (`trim`, `toLowerCase`,
 * `startsWith`, `includes`, `split`, `slice`, template-literal numbers),
 * restricted to ASCII: whitespace is the six ASCII characters `\s` matches
 * and lower-casing only maps `A`-`Z`.
 */
module Text {
  import opened Seqs

  /** ASCII whitespace as seen by `String.prototype.trim` and the regex class `\s`. */
  predicate IsSpace(c: char) {
    c == ' ' || c == '\t' || c == '\n' || c == '\r' || c == '\U{B}' || c == '\U{C}'
  }

  predicate AllSpace(s: string) {
    forall i :: 0 <= i < |s| ==> IsSpace(s[i])
  }

  /** Drops leading whitespace: the result is a suffix of `s` and only whitespace was dropped. */
  function TrimStart(s: string): (r: string)
    ensures |r| <= |s| && r == s[|s| - |r|..]
    ensures forall i :: 0 <= i < |s| - |r| ==> IsSpace(s[i])
    ensures r == [] || !IsSpace(r[0])
  {
    if s != [] && IsSpace(s[0]) then
      var r := TrimStart(s[1..]);
      assert s[1..][|s| - 1 - |r|..] == s[|s| - |r|..];
      r
    else s
  }

  /** Drops trailing whitespace: the result is a prefix of `s` and only whitespace was dropped. */
  function TrimEnd(s: string): (r: string)
    ensures |r| <= |s| && r == s[..|r|]
    ensures forall i :: |r| <= i < |s| ==> IsSpace(s[i])
    ensures r == [] || !IsSpace(r[|r| - 1])
  {
    if s != [] && IsSpace(s[|s| - 1]) then TrimEnd(s[..|s| - 1]) else s
  }

  /** `s.trim()`: empty exactly when `s` is all whitespace, otherwise starts and ends with a non-space. */
  function Trim(s: string): (r: string)
    ensures |r| <= |s|
    ensures r == [] <==> AllSpace(s)
    ensures r != [] ==> !IsSpace(r[0]) && !IsSpace(r[|r| - 1])
  {
    TrimFacts(s, TrimStart(s), TrimEnd(TrimStart(s)));
    TrimEnd(TrimStart(s))
  }

  /** Dropping leading and then trailing whitespace leaves no surrounding whitespace, and nothing exactly when all was whitespace. */
  lemma TrimFacts(s: string, t: string, r: string)
    requires |t| <= |s| && t == s[|s| - |t|..]
    requires forall i :: 0 <= i < |s| - |t| ==> IsSpace(s[i])
    requires t == [] || !IsSpace(t[0])
    requires |r| <= |t| && r == t[..|r|]
    requires forall i :: |r| <= i < |t| ==> IsSpace(t[i])
    requires r == [] || !IsSpace(r[|r| - 1])
    ensures |r| <= |s|
    ensures r == [] <==> AllSpace(s)
    ensures r != [] ==> !IsSpace(r[0]) && !IsSpace(r[|r| - 1])
  {
    var k := |s| - |t|;
    if r == [] {
      assert t == [];
      assert k == |s|;
    }
    if t != [] {
      assert t[0] == s[k];
      assert !AllSpace(s);
    }
    if r != [] {
      assert r[0] == t[0];
    }
  }

  /** Trimming twice is trimming once. */
  lemma TrimIdempotent(s: string)
    ensures Trim(Trim(s)) == Trim(s)
  {
    var t := Trim(s);
    if t != [] {
      assert TrimStart(t) == t;
      assert TrimEnd(t) == t;
    }
  }

  /** Blank in the sense of `!x?.trim()`: absent or only whitespace. */
  predicate Blank(s: string) {
    Trim(s) == []
  }

  function LowerChar(c: char): char {
    if 'A' <= c <= 'Z' then (c as int + 32) as char else c
  }

  /** `s.toLowerCase()` on ASCII letters. */
  function Lower(s: string): (r: string)
    ensures |r| == |s|
    ensures forall i :: 0 <= i < |s| ==> r[i] == LowerChar(s[i])
  {
    seq(|s|, i requires 0 <= i < |s| => LowerChar(s[i]))
  }

  /** Lower-casing works character by character, so it distributes over concatenation. */
  lemma LowerAppend(a: string, b: string)
    ensures Lower(a + b) == Lower(a) + Lower(b)
  {
  }

  /** Lower-casing twice is lower-casing once. */
  lemma LowerIdempotent(s: string)
    ensures Lower(Lower(s)) == Lower(s)
  {
  }

  /** A string without capitals is its own lower-case form. */
  lemma LowerNoCapitals(s: string)
    requires forall i :: 0 <= i < |s| ==> !('A' <= s[i] <= 'Z')
    ensures Lower(s) == s
  {
  }

  /** `s.startsWith(p)`. */
  predicate StartsWith(s: string, p: string) {
    |p| <= |s| && s[..|p|] == p
  }

  /** `s.includes(sub)`: `sub` occurs at some position of `s`. */
  predicate Contains(s: string, sub: string)
    decreases |s|
  {
    StartsWith(s, sub) || (s != [] && Contains(s[1..], sub))
  }

  /** `Contains` agrees with "occurs at some index". */
  lemma {:induction false} ContainsAt(s: string, sub: string, k: nat)
    requires k + |sub| <= |s| && s[k..k + |sub|] == sub
    ensures Contains(s, sub)
    decreases k
  {
    if k > 0 {
      assert s[1..][k - 1..k - 1 + |sub|] == s[k..k + |sub|];
      ContainsAt(s[1..], sub, k - 1);
    }
  }

  /** `s.slice(0, n)`: the first `n` characters, or all of `s` when it is shorter. */
  function Take(s: string, n: nat): (r: string)
    ensures |r| <= n && StartsWith(s, r)
    ensures |s| <= n ==> r == s
    ensures |s| > n ==> |r| == n
  {
    if |s| <= n then s else s[..n]
  }

  /** `s.replace(/\/$/, '')`: removes one trailing slash, if there is one. */
  function StripTrailingSlash(s: string): (r: string)
    ensures r + "/" == s || (r == s && (s == [] || s[|s| - 1] != '/'))
    ensures |s| - 1 <= |r| <= |s|
  {
    if s != [] && s[|s| - 1] == '/' then s[..|s| - 1] else s
  }

  /**
   * `s.split(sep)` where `sep` is a single-character class such as `'\n'` or `/[,;]/`:
   * the maximal pieces between separators, always at least one (`"".split` gives `[""]`).
   */
  function Split(s: string, seps: set<char>): (r: seq<string>)
    ensures |r| >= 1
    decreases |s|
  {
    if s == [] then [""]
    else
      var rest := Split(s[1..], seps);
      if s[0] in seps then [""] + rest
      else [[s[0]] + rest[0]] + rest[1..]
  }

  /** `parts.join(sep)`. */
  function Join(parts: seq<string>, sep: char): string {
    if parts == [] then ""
    else if |parts| == 1 then parts[0]
    else parts[0] + [sep] + Join(parts[1..], sep)
  }

  /** A string without separators splits into itself alone. */
  lemma {:induction false} SplitNoSeparator(s: string, seps: set<char>)
    requires forall i :: 0 <= i < |s| ==> s[i] !in seps
    ensures Split(s, seps) == [s]
    decreases |s|
  {
    if s != [] {
      SplitNoSeparator(s[1..], seps);
      assert s == [s[0]] + s[1..];
    }
  }

  /** No piece of a split contains a separator. */
  lemma {:induction false} SplitPiecesFree(s: string, seps: set<char>)
    ensures forall k, j :: 0 <= k < |Split(s, seps)| && 0 <= j < |Split(s, seps)[k]| ==> Split(s, seps)[k][j] !in seps
    decreases |s|
  {
    if s != [] {
      SplitPiecesFree(s[1..], seps);
    }
  }

  /** Joining the pieces of a split with the separator gives back the original string. */
  lemma {:induction false} SplitJoin(s: string, sep: char)
    ensures Join(Split(s, {sep}), sep) == s
    decreases |s|
  {
    if s != [] {
      var rest := Split(s[1..], {sep});
      SplitJoin(s[1..], sep);
      var r := Split(s, {sep});
      if s[0] == sep {
        assert r == [""] + rest;
        JoinCons("", rest, sep);
      } else {
        assert r == [[s[0]] + rest[0]] + rest[1..];
        if |rest| > 1 {
          JoinCons([s[0]] + rest[0], rest[1..], sep);
          JoinCons(rest[0], rest[1..], sep);
          assert rest == [rest[0]] + rest[1..];
        }
      }
      assert s == [s[0]] + s[1..];
    }
  }

  lemma JoinCons(a: string, rest: seq<string>, sep: char)
    requires rest != []
    ensures Join([a] + rest, sep) == a + [sep] + Join(rest, sep)
  {
    assert ([a] + rest)[1..] == rest;
  }

  /**
   * Splitting a concatenation: the complete pieces of `x` stay as they are and
   * the last, unterminated piece of `x` is continued by `y`. This is why a
   * reader may split text as it arrives and carry the tail forward.
   */
  lemma {:induction false} SplitAppend(x: string, y: string, seps: set<char>)
    ensures Split(x + y, seps) == AllButLast(Split(x, seps)) + Split(Last(Split(x, seps)) + y, seps)
    decreases |x|
  {
    if x == [] {
      assert x + y == y;
    } else {
      assert (x + y)[1..] == x[1..] + y;
      assert (x + y)[0] == x[0];
      SplitAppend(x[1..], y, seps);
      if x[0] in seps {
        SplitAppendSeparator(x, y, seps);
      } else if |Split(x[1..], seps)| == 1 {
        SplitAppendOnePiece(x, y, seps);
      } else {
        SplitAppendPieces(x, y, seps);
      }
    }
  }

  lemma SplitAppendSeparator(x: string, y: string, seps: set<char>)
    requires x != [] && x[0] in seps && (x + y)[1..] == x[1..] + y && (x + y)[0] == x[0]
    requires var s' := Split(x[1..], seps);
      Split(x[1..] + y, seps) == AllButLast(s') + Split(Last(s') + y, seps)
    ensures Split(x + y, seps) == AllButLast(Split(x, seps)) + Split(Last(Split(x, seps)) + y, seps)
  {
    var s' := Split(x[1..], seps);
    assert Split(x, seps) == [""] + s';
    assert Split(x + y, seps) == [""] + Split(x[1..] + y, seps);
    assert AllButLast([""] + s') == [""] + AllButLast(s');
  }

  lemma SplitAppendOnePiece(x: string, y: string, seps: set<char>)
    requires x != [] && x[0] !in seps && (x + y)[1..] == x[1..] + y && (x + y)[0] == x[0]
    requires |Split(x[1..], seps)| == 1
    requires var s' := Split(x[1..], seps);
      Split(x[1..] + y, seps) == AllButLast(s') + Split(Last(s') + y, seps)
    ensures Split(x + y, seps) == AllButLast(Split(x, seps)) + Split(Last(Split(x, seps)) + y, seps)
  {
    var c, s' := x[0], Split(x[1..], seps);
    var w := s'[0];
    assert x == [c] + x[1..] && x + y == [c] + (x[1..] + y);
    SplitCons(c, x[1..], seps);
    SplitCons(c, x[1..] + y, seps);
    SplitCons(c, w + y, seps);
    assert Split(x, seps) == [[c] + w];
    assert Split(x[1..] + y, seps) == Split(w + y, seps);
    assert ([c] + w) + y == [c] + (w + y);
  }

  /** One step of `Split` on a leading non-separator. */
  lemma SplitCons(c: char, w: string, seps: set<char>)
    requires c !in seps
    ensures Split([c] + w, seps) == [[c] + Split(w, seps)[0]] + Split(w, seps)[1..]
  {
    assert ([c] + w)[1..] == w;
  }

  lemma SplitAppendPieces(x: string, y: string, seps: set<char>)
    requires x != [] && x[0] !in seps && (x + y)[1..] == x[1..] + y && (x + y)[0] == x[0]
    requires |Split(x[1..], seps)| > 1
    requires var s' := Split(x[1..], seps);
      Split(x[1..] + y, seps) == AllButLast(s') + Split(Last(s') + y, seps)
    ensures Split(x + y, seps) == AllButLast(Split(x, seps)) + Split(Last(Split(x, seps)) + y, seps)
  {
    var c, s' := x[0], Split(x[1..], seps);
    var rest := Split(x[1..] + y, seps);
    assert x == [c] + x[1..] && x + y == [c] + (x[1..] + y);
    SplitCons(c, x[1..], seps);
    SplitCons(c, x[1..] + y, seps);
    ConsPieces(c, rest, s', Split(Last(s') + y, seps));
  }

  /** The list-level step of `SplitAppendPieces`: a first piece extended by `c` keeps the rest in place. */
  lemma ConsPieces(c: char, rest: seq<string>, pieces: seq<string>, t: seq<string>)
    requires |pieces| > 1 && rest == AllButLast(pieces) + t
    ensures var p := [[c] + pieces[0]] + pieces[1..];
      Last(p) == Last(pieces) && [[c] + rest[0]] + rest[1..] == AllButLast(p) + t
  {
    var middle := pieces[1..|pieces| - 1];
    assert AllButLast(pieces) == [pieces[0]] + middle;
    assert rest[0] == pieces[0] && rest[1..] == middle + t;
    assert AllButLast([[c] + pieces[0]] + pieces[1..]) == [[c] + pieces[0]] + middle;
  }

  function DigitChar(d: nat): char
    requires d < 10
  {
    "0123456789"[d]
  }

  predicate AllDigits(s: string) {
    forall i :: 0 <= i < |s| ==> '0' <= s[i] <= '9'
  }

  /** A non-negative integer in decimal notation, as a template literal prints it. */
  function NatToString(n: nat): (r: string)
    ensures |r| >= 1 && AllDigits(r)
    decreases n
  {
    if n < 10 then [DigitChar(n)] else NatToString(n / 10) + [DigitChar(n % 10)]
  }

  /** An integer in decimal notation, with a leading `-` when negative. */
  function IntToString(n: int): string {
    if n < 0 then "-" + NatToString(-n) else NatToString(n)
  }

  /** The value of a string of decimal digits. */
  function DecimalValue(s: string): nat
    requires AllDigits(s)
  {
    if s == [] then 0 else DecimalValue(s[..|s| - 1]) * 10 + (s[|s| - 1] as int - '0' as int)
  }

  /** Reading back a printed number gives the number. */
  lemma {:induction false} DecimalRoundTrip(n: nat)
    ensures DecimalValue(NatToString(n)) == n
    decreases n
  {
    if n >= 10 {
      DecimalRoundTrip(n / 10);
      var s := NatToString(n);
      assert s[..|s| - 1] == NatToString(n / 10);
    }
  }

  /** Distinct numbers print differently. */
  lemma NatToStringInjective(m: nat, n: nat)
    requires NatToString(m) == NatToString(n)
    ensures m == n
  {
    DecimalRoundTrip(m);
    DecimalRoundTrip(n);
  }
}
