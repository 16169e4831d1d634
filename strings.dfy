/**
 * String helpers shared by the client, the gateway and the services: the three languages'
 * whitespace trimming, separator search and splitting with JavaScript's `split` semantics,
 * first-occurrence replacement, ASCII case mapping and decimal rendering.
 */
module Strings {
  import opened Wrappers

  // ---------------------------------------------------------------------------------------------
  // Whitespace, one predicate per language's definition
  // ---------------------------------------------------------------------------------------------

  /** Characters JavaScript's `String.prototype.trim` removes (WhiteSpace and LineTerminator). */
  predicate IsJsSpace(c: char) {
    c == '\t' || c == '\n' || c == '\U{000B}' || c == '\U{000C}' || c == '\r' || c == ' ' ||
    c == '\U{00A0}' || c == '\U{1680}' || ('\U{2000}' <= c <= '\U{200A}') || c == '\U{2028}' ||
    c == '\U{2029}' || c == '\U{202F}' || c == '\U{205F}' || c == '\U{3000}' || c == '\U{FEFF}'
  }

  /** Characters Go's `unicode.IsSpace` accepts, so those `strings.TrimSpace` removes. */
  predicate IsGoSpace(c: char) {
    c == '\t' || c == '\n' || c == '\U{000B}' || c == '\U{000C}' || c == '\r' || c == ' ' ||
    c == '\U{0085}' || c == '\U{00A0}' || c == '\U{1680}' || ('\U{2000}' <= c <= '\U{200A}') ||
    c == '\U{2028}' || c == '\U{2029}' || c == '\U{202F}' || c == '\U{205F}' || c == '\U{3000}'
  }

  /** Characters Python's `str.isspace` accepts, so those `str.strip()` removes. */
  predicate IsPySpace(c: char) {
    ('\t' <= c <= '\r') || ('\U{001C}' <= c <= '\U{001F}') || c == ' ' ||
    c == '\U{0085}' || c == '\U{00A0}' || c == '\U{1680}' || ('\U{2000}' <= c <= '\U{200A}') ||
    c == '\U{2028}' || c == '\U{2029}' || c == '\U{202F}' || c == '\U{205F}' || c == '\U{3000}'
  }

  function TrimLeftWith(s: string, ws: char -> bool): (r: string)
    ensures |r| <= |s| && r == s[|s| - |r|..]
    ensures r == [] || !ws(r[0])
  {
    if s == [] || !ws(s[0]) then s else TrimLeftWith(s[1..], ws)
  }

  function TrimRightWith(s: string, ws: char -> bool): (r: string)
    ensures |r| <= |s| && r == s[..|r|]
    ensures r == [] || !ws(r[|r| - 1])
  {
    if s == [] || !ws(s[|s| - 1]) then s else TrimRightWith(s[..|s| - 1], ws)
  }

  /** Removes the leading and trailing characters that satisfy `ws`. */
  function TrimWith(s: string, ws: char -> bool): (r: string)
    ensures r == [] || (!ws(r[0]) && !ws(r[|r| - 1]))
    ensures |r| <= |s|
  {
    TrimRightWith(TrimLeftWith(s, ws), ws)
  }

  /** JavaScript `s.trim()`. */
  function JsTrim(s: string): string { TrimWith(s, IsJsSpace) }

  /** Go `strings.TrimSpace(s)`. */
  function GoTrim(s: string): string { TrimWith(s, IsGoSpace) }

  /** Python `s.strip()`. */
  function PyStrip(s: string): string { TrimWith(s, IsPySpace) }

  /** Trimming returns an infix of the input: what it removes is a prefix and a suffix. */
  lemma {:induction false} TrimIsInfix(s: string, ws: char -> bool)
    ensures exists i, j :: 0 <= i <= j <= |s| && TrimWith(s, ws) == s[i..j]
  {
    var l := TrimLeftWith(s, ws);
    var r := TrimRightWith(l, ws);
    var i := |s| - |l|;
    SliceOfSuffix(s, i, |r|, l, r);
    assert 0 <= i <= i + |r| <= |s| && TrimWith(s, ws) == s[i..i + |r|];
  }

  lemma {:induction false} SliceOfSuffix(s: string, i: nat, n: nat, l: string, r: string)
    requires i + n <= |s| && l == s[i..] && n <= |l| && r == l[..n]
    ensures r == s[i..i + n]
  {
    assert forall k :: 0 <= k < n ==> r[k] == s[i + k];
  }

  /** Trimming twice is trimming once. */
  lemma {:induction false} TrimIdempotent(s: string, ws: char -> bool)
    ensures TrimWith(TrimWith(s, ws), ws) == TrimWith(s, ws)
  {
    var t := TrimWith(s, ws);
    if t != [] {
      assert TrimLeftWith(t, ws) == t;
      assert TrimRightWith(t, ws) == t;
    }
  }

  /** What the left trim removes is whitespace. */
  lemma {:induction false} TrimLeftRemovesSpace(s: string, ws: char -> bool)
    ensures forall i :: 0 <= i < |s| - |TrimLeftWith(s, ws)| ==> ws(s[i])
  {
    if s != [] && ws(s[0]) {
      TrimLeftRemovesSpace(s[1..], ws);
      forall i | 0 <= i < |s| - |TrimLeftWith(s, ws)| ensures ws(s[i]) {
        if i > 0 { assert s[i] == s[1..][i - 1]; }
      }
    }
  }

  /** What the right trim removes is whitespace. */
  lemma {:induction false} TrimRightRemovesSpace(s: string, ws: char -> bool)
    ensures forall i :: |TrimRightWith(s, ws)| <= i < |s| ==> ws(s[i])
  {
    if s != [] && ws(s[|s| - 1]) {
      TrimRightRemovesSpace(s[..|s| - 1], ws);
      forall i | |TrimRightWith(s, ws)| <= i < |s| ensures ws(s[i]) {
        if i < |s| - 1 { assert s[i] == s[..|s| - 1][i]; }
      }
    }
  }

  /** A string trims to nothing exactly when every character of it is whitespace. */
  lemma {:induction false} TrimEmptyIff(s: string, ws: char -> bool)
    ensures TrimWith(s, ws) == [] <==> forall i :: 0 <= i < |s| ==> ws(s[i])
  {
    var l := TrimLeftWith(s, ws);
    TrimLeftRemovesSpace(s, ws);
    TrimRightRemovesSpace(l, ws);
    if TrimWith(s, ws) == [] {
      assert l == [];
    } else {
      assert l != [] && !ws(l[0]);
      assert !ws(s[|s| - |l|]);
    }
  }

  /** Trimming a string that has no whitespace at either end changes nothing. */
  lemma {:induction false} TrimUnchanged(s: string, ws: char -> bool)
    requires s == [] || (!ws(s[0]) && !ws(s[|s| - 1]))
    ensures TrimWith(s, ws) == s
  {
  }

  /** Text that neither starts nor ends with whitespace is left alone, whatever lies between its two parts. */
  lemma {:induction false} TrimUnchangedJoin(p: string, u: string, ws: char -> bool)
    requires p != [] && !ws(p[0]) && u != [] && !ws(u[|u| - 1])
    ensures TrimWith(p + u, ws) == p + u
  {
    var r := p + u;
    assert r[0] == p[0] && r[|r| - 1] == u[|u| - 1];
    TrimUnchanged(r, ws);
  }

  /** A leading character that is whitespace is dropped by the trim. */
  lemma {:induction false} TrimDropsLeading(c: char, s: string, ws: char -> bool)
    requires ws(c)
    ensures TrimWith([c] + s, ws) == TrimWith(s, ws)
  {
    assert ([c] + s)[1..] == s;
  }

  // ---------------------------------------------------------------------------------------------
  // Prefixes, occurrences, search
  // ---------------------------------------------------------------------------------------------

  predicate StartsWith(s: string, prefix: string) {
    |prefix| <= |s| && s[..|prefix|] == prefix
  }

  /** `pat` occurs in `s` at position `i`. */
  predicate OccursAt(s: string, pat: string, i: nat) {
    i + |pat| <= |s| && s[i..i + |pat|] == pat
  }

  ghost predicate Contains(s: string, pat: string) {
    exists i: nat :: OccursAt(s, pat, i)
  }

  /** The first position at or after `k` where `pat` occurs. */
  function FindFrom(s: string, pat: string, k: nat): (r: Option<nat>)
    requires |pat| > 0
    decreases |s| - k
    ensures r.Some? ==> k <= r.value && OccursAt(s, pat, r.value)
    ensures r.Some? ==> forall j :: k <= j < r.value ==> !OccursAt(s, pat, j)
    ensures r.None? ==> forall j :: k <= j ==> !OccursAt(s, pat, j)
  {
    if k + |pat| > |s| then None
    else if s[k..k + |pat|] == pat then Some(k)
    else FindFrom(s, pat, k + 1)
  }

  /** JavaScript `s.indexOf(pat)`, with `None` for -1. */
  function Find(s: string, pat: string): (r: Option<nat>)
    requires |pat| > 0
    ensures r.None? <==> !Contains(s, pat)
    ensures r.Some? ==> OccursAt(s, pat, r.value) && forall j :: 0 <= j < r.value ==> !OccursAt(s, pat, j)
  {
    FindFrom(s, pat, 0)
  }

  /** The first occurrence is the only one with no occurrence before it. */
  lemma {:induction false} FindIsFirst(s: string, pat: string, i: nat)
    requires |pat| > 0
    requires OccursAt(s, pat, i)
    requires forall j :: 0 <= j < i ==> !OccursAt(s, pat, j)
    ensures Find(s, pat) == Some(i)
  {
    assert Find(s, pat).Some?;
  }

  lemma {:induction false} OccursExtend(s: string, t: string, pat: string, j: nat)
    requires j + |pat| <= |s|
    ensures OccursAt(s + t, pat, j) <==> OccursAt(s, pat, j)
  {
    assert (s + t)[j..j + |pat|] == s[j..j + |pat|];
  }

  /** An occurrence found in `s` is still the first one once more text is appended. */
  lemma {:induction false} FindAppend(s: string, t: string, pat: string)
    requires |pat| > 0
    requires Find(s, pat).Some?
    ensures Find(s + t, pat) == Find(s, pat)
  {
    var i := Find(s, pat).value;
    OccursExtend(s, t, pat, i);
    forall j | 0 <= j < i ensures !OccursAt(s + t, pat, j) {
      OccursExtend(s, t, pat, j);
    }
    FindIsFirst(s + t, pat, i);
  }

  /** A string that starts with `p` has its first occurrence of `p` at position 0. */
  lemma {:induction false} FindPrefix(s: string, p: string)
    requires |p| > 0 && StartsWith(s, p)
    ensures Find(s, p) == Some(0)
  {
    FindIsFirst(s, p, 0);
  }

  /** JavaScript `s.replace(pat, rep)` with a string pattern: only the first occurrence. */
  function ReplaceFirst(s: string, pat: string, rep: string): string
    requires |pat| > 0
  {
    match Find(s, pat)
    case None => s
    case Some(i) => s[..i] + rep + s[i + |pat|..]
  }

  /** Removing a prefix with `replace` is slicing it off. */
  lemma {:induction false} ReplacePrefix(s: string, p: string)
    requires |p| > 0 && StartsWith(s, p)
    ensures ReplaceFirst(s, p, "") == s[|p|..]
  {
    FindPrefix(s, p);
  }

  // ---------------------------------------------------------------------------------------------
  // Splitting (JavaScript `s.split(sep)` with a non-empty string separator)
  // ---------------------------------------------------------------------------------------------

  /**
   * The pieces between the non-overlapping occurrences of `sep`, found left to right;
   * a string without `sep` is one piece, and `""` splits to `[""]`.
   */
  function Split(s: string, sep: string): (parts: seq<string>)
    requires |sep| > 0
    ensures |parts| >= 1
    decreases |s|
  {
    match Find(s, sep)
    case None => [s]
    case Some(i) => [s[..i]] + Split(s[i + |sep|..], sep)
  }

  /** Joining the pieces back with the separator gives the original text. */
  function Join(parts: seq<string>, sep: string): string
    requires |parts| >= 1
  {
    if |parts| == 1 then parts[0] else parts[0] + sep + Join(parts[1..], sep)
  }

  /** One step of `Split` when the separator occurs at `i`. */
  lemma {:induction false} SplitSome(s: string, sep: string, i: nat)
    requires |sep| > 0 && Find(s, sep) == Some(i)
    ensures Split(s, sep) == [s[..i]] + Split(s[i + |sep|..], sep)
  {
  }

  lemma {:induction false} JoinCons(p: string, ps: seq<string>, sep: string)
    requires |ps| >= 1
    ensures Join([p] + ps, sep) == p + sep + Join(ps, sep)
  {
    assert ([p] + ps)[1..] == ps;
  }

  lemma {:induction false} SplitJoin(s: string, sep: string)
    requires |sep| > 0
    ensures Join(Split(s, sep), sep) == s
    decreases |s|
  {
    var f := Find(s, sep);
    if f.Some? {
      var i := f.value;
      var rest := s[i + |sep|..];
      SplitSome(s, sep, i);
      SplitJoin(rest, sep);
      JoinCons(s[..i], Split(rest, sep), sep);
      assert s[i..i + |sep|] == sep;
      assert s == s[..i] + sep + rest;
    }
  }

  /** The text before the first occurrence of `pat` does not contain it. */
  lemma {:induction false} BeforeFirstFree(s: string, pat: string, i: nat)
    requires |pat| > 0 && Find(s, pat) == Some(i)
    ensures !Contains(s[..i], pat)
  {
    forall j: nat ensures !OccursAt(s[..i], pat, j) {
      if j + |pat| <= i {
        assert s[..i][j..j + |pat|] == s[j..j + |pat|];
        assert !OccursAt(s, pat, j);
      }
    }
  }

  /** No piece of a split contains the separator. */
  lemma {:induction false} SplitPiecesFree(s: string, sep: string)
    requires |sep| > 0
    ensures forall k :: 0 <= k < |Split(s, sep)| ==> !Contains(Split(s, sep)[k], sep)
    decreases |s|
  {
    var f := Find(s, sep);
    if f.Some? {
      var i := f.value;
      var rest := s[i + |sep|..];
      SplitSome(s, sep, i);
      SplitPiecesFree(rest, sep);
      BeforeFirstFree(s, sep, i);
      var ps := Split(rest, sep);
      forall k | 0 <= k < |Split(s, sep)| ensures !Contains(Split(s, sep)[k], sep) {
        if k > 0 { assert Split(s, sep)[k] == ps[k - 1]; }
      }
    }
  }

  /** The remainder a split leaves (its last piece) never contains the separator. */
  lemma {:induction false} LastPieceFree(s: string, sep: string)
    requires |sep| > 0
    ensures !Contains(Last(Split(s, sep)), sep)
  {
    SplitPiecesFree(s, sep);
  }

  /**
   * Splitting is incremental: splitting `s + t` emits the complete pieces of `s` and then
   * splits the last piece of `s` (the carried-over remainder) together with `t`.
   */
  lemma {:induction false} SplitAppend(s: string, t: string, sep: string)
    requires |sep| > 0
    ensures Split(s + t, sep) == Init(Split(s, sep)) + Split(Last(Split(s, sep)) + t, sep)
    decreases |s|
  {
    var f := Find(s, sep);
    if f.None? {
      assert Split(s, sep) == [s];
    } else {
      var i := f.value;
      var rest := s[i + |sep|..];
      FindAppend(s, t, sep);
      SplitSome(s, sep, i);
      SplitSome(s + t, sep, i);
      assert (s + t)[..i] == s[..i];
      assert (s + t)[i + |sep|..] == rest + t;
      SplitAppend(rest, t, sep);
      ConsInitLast(s[..i], Split(rest, sep), Split(Last(Split(rest, sep)) + t, sep));
    }
  }

  lemma {:induction false} ConsInitLast<T>(a: T, ps: seq<T>, qs: seq<T>)
    requires |ps| >= 1
    ensures Last([a] + ps) == Last(ps)
    ensures Init([a] + ps) + qs == [a] + (Init(ps) + qs)
  {
    assert Init([a] + ps) == [a] + Init(ps);
  }

  /** A piece without the separator, followed by the separator and more text. */
  lemma {:induction false} SplitLeading(b: string, rest: string, sep: string)
    requires |sep| > 0
    requires !Contains(b + sep[..|sep| - 1], sep)
    ensures Split(b + sep + rest, sep) == [b] + Split(rest, sep)
  {
    var s := b + sep + rest;
    assert OccursAt(s, sep, |b|) by { assert s[|b|..|b| + |sep|] == sep; }
    var p := b + sep[..|sep| - 1];
    assert s == p + s[|p|..];
    forall j | 0 <= j < |b| ensures !OccursAt(s, sep, j) {
      assert !OccursAt(p, sep, j);
      OccursExtend(p, s[|p|..], sep, j);
    }
    FindIsFirst(s, sep, |b|);
    assert s[..|b|] == b;
    assert s[|b| + |sep|..] == rest;
  }

  /** Splitting on a single character after appending that character adds one empty piece. */
  lemma {:induction false} SplitAppendChar(s: string, c: char)
    ensures Split(s + [c], [c]) == Split(s, [c]) + [""]
  {
    var ps := Split(s, [c]);
    SplitAppend(s, [c], [c]);
    LastPieceFree(s, [c]);
    SplitTrailing(Last(ps), c);
    InitLast(ps, "");
  }

  /** A piece without the character, followed by that character, splits into itself and `""`. */
  lemma {:induction false} SplitTrailing(b: string, c: char)
    requires !Contains(b, [c])
    ensures Split(b + [c], [c]) == [b, ""]
  {
    assert b + [c][..0] == b;
    SplitLeading(b, "", [c]);
    assert b + [c] + "" == b + [c];
    assert Split("", [c]) == [""];
  }

  lemma {:induction false} InitLast<T>(xs: seq<T>, y: T)
    requires |xs| >= 1
    ensures Init(xs) + [Last(xs), y] == xs + [y]
  {
  }

  // ---------------------------------------------------------------------------------------------
  // Prefix slices, case mapping, decimal rendering
  // ---------------------------------------------------------------------------------------------

  function LowerChar(c: char): char {
    if 'A' <= c <= 'Z' then (c as int + 32) as char else c
  }

  function UpperChar(c: char): char {
    if 'a' <= c <= 'z' then (c as int - 32) as char else c
  }

  /** `toLowerCase()` restricted to ASCII letters. */
  function ToLower(s: string): (r: string)
    ensures |r| == |s|
  {
    if s == [] then [] else [LowerChar(s[0])] + ToLower(s[1..])
  }

  /** Lower-casing works character by character. */
  lemma {:induction false} ToLowerIndex(s: string)
    ensures forall i :: 0 <= i < |s| ==> ToLower(s)[i] == LowerChar(s[i])
  {
    if s != [] {
      ToLowerIndex(s[1..]);
      forall i | 0 <= i < |s| ensures ToLower(s)[i] == LowerChar(s[i]) {
        if i > 0 { assert ToLower(s)[i] == ToLower(s[1..])[i - 1]; assert s[1..][i - 1] == s[i]; }
      }
    }
  }

  /** `upper()` restricted to ASCII letters. */
  function ToUpper(s: string): (r: string)
    ensures |r| == |s|
  {
    if s == [] then [] else [UpperChar(s[0])] + ToUpper(s[1..])
  }

  /** Upper-casing works character by character. */
  lemma {:induction false} ToUpperIndex(s: string)
    ensures forall i :: 0 <= i < |s| ==> ToUpper(s)[i] == UpperChar(s[i])
  {
    if s != [] {
      ToUpperIndex(s[1..]);
      forall i | 0 <= i < |s| ensures ToUpper(s)[i] == UpperChar(s[i]) {
        if i > 0 { assert ToUpper(s)[i] == ToUpper(s[1..])[i - 1]; assert s[1..][i - 1] == s[i]; }
      }
    }
  }

  function DigitChar(d: nat): char
    requires d < 10
  {
    "0123456789"[d]
  }

  predicate IsDigit(c: char) { '0' <= c <= '9' }

  /** The decimal digits of `n`, no leading zeros. */
  function NatToString(n: nat): (r: string)
    ensures |r| >= 1 && forall i :: 0 <= i < |r| ==> IsDigit(r[i])
    ensures (r[0] == '0') <==> n == 0
  {
    if n < 10 then [DigitChar(n)] else NatToString(n / 10) + [DigitChar(n % 10)]
  }

  /** Decimal rendering of an integer with a leading '-' for negatives. */
  function IntToString(n: int): string {
    if n < 0 then "-" + NatToString(-n) else NatToString(n)
  }

  /** The value of a string of decimal digits. */
  function DigitsValue(s: string): nat
    requires forall i :: 0 <= i < |s| ==> IsDigit(s[i])
  {
    if s == [] then 0
    else
      assert IsDigit(s[|s| - 1]);
      DigitsValue(s[..|s| - 1]) * 10 + (s[|s| - 1] as int - '0' as int)
  }

  lemma {:induction false} NatToStringRoundTrip(n: nat)
    ensures DigitsValue(NatToString(n)) == n
  {
    if n >= 10 {
      var s := NatToString(n);
      NatToStringRoundTrip(n / 10);
      assert s[..|s| - 1] == NatToString(n / 10);
    }
  }
}
