/**
 * The string operations of the JavaScript runtime that the attendance sheet
 * and the staff directory rely on: `trim`, `toLowerCase`, `includes`,
 * `startsWith`, the digit-stripping `replace(/\d+/g, '')` and the month
 * marker replacement `replace(/.*MES DE/i, '')`.
 */
module Text {

  import opened Wrappers
  import opened Seqs

  /** `\d` of a JavaScript regular expression without the `u` flag. */
  predicate IsDigit(c: char) {
    '0' <= c <= '9'
  }

  /** The characters that `.` in a JavaScript regular expression does not match. */
  predicate IsLineTerminator(c: char) {
    c == '\n' || c == '\r' || c == '\U{2028}' || c == '\U{2029}'
  }

  /** JavaScript's WhiteSpace and LineTerminator characters, which `trim` removes. */
  predicate IsWhitespace(c: char) {
    || IsLineTerminator(c)
    || c == ' ' || c == '\t' || c == '\U{B}' || c == '\U{C}'
    || c == '\U{A0}' || c == '\U{1680}' || ('\U{2000}' <= c <= '\U{200A}')
    || c == '\U{202F}' || c == '\U{205F}' || c == '\U{3000}' || c == '\U{FEFF}'
  }

  /** `trimStart`: drops the leading whitespace and nothing else. */
  function TrimStart(s: string): (r: string)
    ensures |r| <= |s| && r == s[|s| - |r|..]
    ensures forall i :: 0 <= i < |s| - |r| ==> IsWhitespace(s[i])
    ensures r != [] ==> !IsWhitespace(r[0])
  {
    if s != [] && IsWhitespace(s[0]) then TrimStart(s[1..]) else s
  }

  /** `trimEnd`: drops the trailing whitespace and nothing else. */
  function TrimEnd(s: string): (r: string)
    ensures |r| <= |s| && r == s[..|r|]
    ensures forall i :: |r| <= i < |s| ==> IsWhitespace(s[i])
    ensures r != [] ==> !IsWhitespace(r[|r| - 1])
  {
    if s != [] && IsWhitespace(s[|s| - 1]) then TrimEnd(s[..|s| - 1]) else s
  }

  /** `trim`: `s` without its leading and trailing whitespace (see `TrimExact`). */
  function Trim(s: string): (r: string)
    ensures r == TrimEnd(TrimStart(s))
    ensures r != [] ==> !IsWhitespace(r[0]) && !IsWhitespace(r[|r| - 1])
  {
    TrimEnd(TrimStart(s))
  }

  /**
   * `trim` removes exactly the leading and the trailing whitespace: the result
   * is the slice between them.
   */
  lemma TrimExact(s: string)
    ensures var a := |s| - |TrimStart(s)|; var r := Trim(s);
      && a + |r| <= |s| && r == s[a..a + |r|]
      && (forall i :: 0 <= i < a ==> IsWhitespace(s[i]))
      && (forall i :: a + |r| <= i < |s| ==> IsWhitespace(s[i]))
  {
    var t := TrimStart(s);
    var a := |s| - |t|;
    var r := TrimEnd(t);
    assert t == s[a..];
    assert r == t[..|r|];
    PrefixOfSuffix(s, a, |r|);
    assert r == s[a..a + |r|];
    forall i | a + |r| <= i < |s|
      ensures IsWhitespace(s[i])
    {
      assert |r| <= i - a < |t|;
      assert IsWhitespace(t[i - a]);
      assert s[i] == t[i - a];
    }
  }

  lemma PrefixOfSuffix(s: string, a: nat, k: nat)
    requires a + k <= |s|
    ensures s[a..][..k] == s[a..a + k]
  {
  }

  /** Trimming a text without digits leaves a text without digits. */
  lemma TrimKeepsDigitFree(s: string)
    requires forall i :: 0 <= i < |s| ==> !IsDigit(s[i])
    ensures forall i :: 0 <= i < |Trim(s)| ==> !IsDigit(Trim(s)[i])
  {
    var t := TrimStart(s);
    var r := TrimEnd(t);
    assert Trim(s) == r;
    forall i | 0 <= i < |r|
      ensures !IsDigit(r[i])
    {
      assert r[i] == t[i] == s[|s| - |t| + i];
    }
  }

  function NonDigit(): char -> bool {
    (c: char) => !IsDigit(c)
  }

  /** `replace(/\d+/g, '')`: the characters of `s` that are not digits, in order. */
  function RemoveDigits(s: string): (r: string)
    ensures r == Filter(s, NonDigit())
    ensures |r| <= |s|
    ensures forall i :: 0 <= i < |r| ==> !IsDigit(r[i])
    ensures (forall i :: 0 <= i < |s| ==> !IsDigit(s[i])) ==> r == s
  {
    if s == [] then []
    else if IsDigit(s[0]) then RemoveDigits(s[1..])
    else [s[0]] + RemoveDigits(s[1..])
  }

  /**
   * `toLowerCase` on the letters of Basic Latin and Latin-1, which covers the
   * Spanish alphabet.
   */
  function LowerChar(c: char): char {
    if 'A' <= c <= 'Z' || ('\U{C0}' <= c <= '\U{DE}' && c != '\U{D7}')
    then (c as int + 32) as char
    else c
  }

  function Lower(s: string): (r: string)
    ensures |r| == |s|
    ensures forall i :: 0 <= i < |s| ==> r[i] == LowerChar(s[i])
    ensures forall i :: 0 <= i < |r| ==> !('A' <= r[i] <= 'Z')
  {
    seq(|s|, i requires 0 <= i < |s| => LowerChar(s[i]))
  }

  /** Lower-casing twice is lower-casing once. */
  lemma LowerIdempotent(s: string)
    ensures Lower(Lower(s)) == Lower(s)
  {
    var t := Lower(s);
    forall i | 0 <= i < |t|
      ensures LowerChar(t[i]) == t[i]
    {
      var c := s[i];
      if 'A' <= c <= 'Z' || ('\U{C0}' <= c <= '\U{DE}' && c != '\U{D7}') {
        assert 'a' <= t[i] <= 'z' || ('\U{E0}' <= t[i] <= '\U{FE}' && t[i] != '\U{F7}');
      }
    }
  }

  /** Upper-casing of ASCII letters: how `/MES DE/i` compares characters. */
  function UpperAscii(s: string): (r: string)
    ensures |r| == |s|
  {
    seq(|s|, i requires 0 <= i < |s| => if 'a' <= s[i] <= 'z' then (s[i] as int - 32) as char else s[i])
  }

  predicate InfixAt(s: string, t: string, i: nat) {
    i + |t| <= |s| && s[i..i + |t|] == t
  }

  /** `s.includes(t)`. */
  predicate Contains(s: string, t: string) {
    exists i | 0 <= i <= |s| :: InfixAt(s, t, i)
  }

  /** `s.startsWith(p)`. */
  predicate StartsWith(s: string, p: string) {
    |p| <= |s| && s[..|p|] == p
  }

  lemma ContainsEmpty(s: string)
    ensures Contains(s, "")
  {
    assert InfixAt(s, "", 0);
  }

  // ---------------------------------------------------------------------
  // replace(/.*MES DE/i, '')
  // ---------------------------------------------------------------------

  const MARKER: string := "MES DE"

  /** The month marker occurs at `i`, compared without regard to case. */
  predicate MarkerAt(s: string, i: nat) {
    i + |MARKER| <= |s| && UpperAscii(s[i..i + |MARKER|]) == MARKER
  }

  /** The end of the line that starts at `p`: how far `.*` can reach from `p`. */
  function LineEnd(s: string, p: nat): (e: nat)
    requires p <= |s|
    ensures p <= e <= |s|
    ensures e < |s| ==> IsLineTerminator(s[e])
    ensures forall i :: p <= i < e ==> !IsLineTerminator(s[i])
    decreases |s| - p
  {
    if p == |s| || IsLineTerminator(s[p]) then p else LineEnd(s, p + 1)
  }

  /** The last marker that starts in `[lo, hi]`, found from the right as a greedy `.*` backtracks. */
  function LastMarkerIn(s: string, lo: nat, hi: int): (r: Option<nat>)
    ensures r.Some? ==> lo <= r.value <= hi && MarkerAt(s, r.value)
    ensures r.Some? ==> forall q: nat :: r.value < q <= hi ==> !MarkerAt(s, q)
    ensures r.None? ==> forall q: nat :: lo <= q <= hi ==> !MarkerAt(s, q)
    decreases hi - lo
  {
    if hi < lo then None
    else if MarkerAt(s, hi) then Some(hi)
    else LastMarkerIn(s, lo, hi - 1)
  }

  /** The match of `/.*MES DE/i` that starts at `p`, given by where its marker starts. */
  function MatchFrom(s: string, p: nat): Option<nat>
    requires p <= |s|
  {
    LastMarkerIn(s, p, LineEnd(s, p))
  }

  /** The leftmost match at or after `p`, as the pair (start, marker position). */
  function LeftmostMatch(s: string, p: nat): (r: Option<(nat, nat)>)
    requires p <= |s|
    ensures r.Some? ==> p <= r.value.0 <= r.value.1 && r.value.0 <= |s| && MarkerAt(s, r.value.1)
    ensures r.Some? ==> MatchFrom(s, r.value.0) == Some(r.value.1)
    ensures r.Some? ==> forall p': nat :: p <= p' < r.value.0 ==> MatchFrom(s, p').None?
    ensures r.None? ==> forall p': nat :: p <= p' <= |s| ==> MatchFrom(s, p').None?
    decreases |s| - p
  {
    match MatchFrom(s, p)
    case Some(q) => Some((p, q))
    case None => if p == |s| then None else LeftmostMatch(s, p + 1)
  }

  /** `s.replace(/.*MES DE/i, '')`: removes the first match, if any. */
  function StripThroughMarker(s: string): (r: string)
    ensures LeftmostMatch(s, 0).None? ==> r == s
    ensures LeftmostMatch(s, 0).Some? ==> |r| + |MARKER| <= |s|
    ensures LeftmostMatch(s, 0).Some? ==> var p := LeftmostMatch(s, 0).value.0; p <= |r| && r[..p] == s[..p]
    ensures LeftmostMatch(s, 0).Some? ==>
      var m := LeftmostMatch(s, 0).value; r == s[..m.0] + s[m.1 + |MARKER|..]
  {
    match LeftmostMatch(s, 0)
    case None => s
    case Some((p, q)) => s[..p] + s[q + |MARKER|..]
  }

  lemma {:induction false} NoMatchWithoutMarker(s: string, p: nat)
    requires p <= |s|
    requires forall q: nat :: !MarkerAt(s, q)
    ensures LeftmostMatch(s, p) == None
    decreases |s| - p
  {
    if p < |s| {
      NoMatchWithoutMarker(s, p + 1);
    }
  }

  /** Without any marker the replacement leaves the text as it is. */
  lemma StripWithoutMarker(s: string)
    requires forall q: nat :: !MarkerAt(s, q)
    ensures StripThroughMarker(s) == s
  {
    NoMatchWithoutMarker(s, 0);
  }

  /**
   * On a single line, the replacement removes everything up to and including
   * the LAST marker, whatever its case.
   */
  lemma StripThroughLastMarker(s: string, q: nat)
    requires forall i :: 0 <= i < |s| ==> !IsLineTerminator(s[i])
    requires MarkerAt(s, q)
    requires forall q': nat :: q < q' ==> !MarkerAt(s, q')
    ensures StripThroughMarker(s) == s[q + |MARKER|..]
  {
    assert LineEnd(s, 0) == |s|;
    var m := LastMarkerIn(s, 0, |s|);
    assert m == Some(q);
  }
}
