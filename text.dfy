/**
 * The string operations the knowledge-base client relies on: lower-casing,
 * the `in` substring test, decimal rendering of a count and `str.strip()`.
 */
module Text {

  /** Lower-cases the ASCII letters A-Z and leaves every other character alone. */
  function LowerChar(c: char): (r: char)
    ensures 'A' <= c <= 'Z' ==> 'a' <= r <= 'z' && r as int - c as int == 32
    ensures !('A' <= c <= 'Z') ==> r == c
  {
    if 'A' <= c <= 'Z' then (c as int + 32) as char else c
  }

  function Lower(s: string): (r: string)
    ensures |r| == |s|
    ensures forall i :: 0 <= i < |s| ==> r[i] == LowerChar(s[i])
  {
    if s == [] then [] else [LowerChar(s[0])] + Lower(s[1..])
  }

  /** `needle` occurs in `s` at position `i`. */
  predicate OccursAt(needle: string, s: string, i: int) {
    0 <= i && i + |needle| <= |s| && s[i..i + |needle|] == needle
  }

  /** Python's `needle in s` on two strings, computed by scanning `s`. */
  function IsSubstring(needle: string, s: string): (r: bool)
    ensures r <==> exists i :: OccursAt(needle, s, i)
    decreases |s|
  {
    if |needle| > |s| then
      assert forall i :: !OccursAt(needle, s, i);
      false
    else if s[..|needle|] == needle then
      assert OccursAt(needle, s, 0);
      true
    else
      var rest := IsSubstring(needle, s[1..]);
      ShiftOccurrence(needle, s);
      rest
  }

  /** Occurrences in `s` past position 0 are exactly the occurrences in `s[1..]`, shifted. */
  lemma ShiftOccurrence(needle: string, s: string)
    requires |needle| <= |s| && s[..|needle|] != needle
    ensures (exists i :: OccursAt(needle, s, i)) <==> (exists j :: OccursAt(needle, s[1..], j))
  {
    if exists i :: OccursAt(needle, s, i) {
      var i :| OccursAt(needle, s, i);
      assert i != 0;
      assert s[1..][i - 1..i - 1 + |needle|] == s[i..i + |needle|];
      assert OccursAt(needle, s[1..], i - 1);
    }
    if exists j :: OccursAt(needle, s[1..], j) {
      var j :| OccursAt(needle, s[1..], j);
      assert s[j + 1..j + 1 + |needle|] == s[1..][j..j + |needle|];
      assert OccursAt(needle, s, j + 1);
    }
  }

  /** `any(k in s.lower() for k in keywords)`. */
  predicate MentionsAny(s: string, keywords: seq<string>) {
    exists k :: k in keywords && IsSubstring(k, Lower(s))
  }

  predicate IsDigit(c: char) { '0' <= c <= '9' }

  function DigitChar(d: nat): (c: char)
    requires d < 10
    ensures IsDigit(c) && c as int - '0' as int == d
  {
    ('0' as int + d) as char
  }

  /** Decimal rendering of a count, as an f-string renders an `int`. */
  function NatToString(n: nat): (r: string)
    ensures r != []
    ensures forall i :: 0 <= i < |r| ==> IsDigit(r[i])
    ensures n > 0 ==> r[0] != '0'
  {
    if n < 10 then [DigitChar(n)] else NatToString(n / 10) + [DigitChar(n % 10)]
  }

  /** The value of a string of decimal digits: the partner of `NatToString`. */
  function DecimalValue(s: string): nat
    requires forall i :: 0 <= i < |s| ==> IsDigit(s[i])
  {
    if s == [] then 0
    else
      assert IsDigit(s[|s| - 1]);
      10 * DecimalValue(s[..|s| - 1]) + (s[|s| - 1] as int - '0' as int)
  }

  /** A rendered count reads back as the same count, so the rendering loses nothing. */
  lemma {:induction false} NatToStringRoundTrip(n: nat)
    ensures DecimalValue(NatToString(n)) == n
  {
    if n >= 10 {
      var s := NatToString(n);
      assert s[..|s| - 1] == NatToString(n / 10);
      NatToStringRoundTrip(n / 10);
    }
  }

  /** The ASCII characters `str.strip()` removes: blank, tab, line breaks and the four separators 0x1C-0x1F. */
  predicate IsWhitespace(c: char) {
    || c == ' ' || c == '\t' || c == '\n' || c == '\r' || c == '\U{000B}' || c == '\U{000C}'
    || '\U{001C}' <= c <= '\U{001F}'
  }

  function TrimRight(s: string): (r: string)
    ensures |r| <= |s| && r == s[..|r|]
    ensures r == [] || !IsWhitespace(r[|r| - 1])
    ensures forall i :: |r| <= i < |s| ==> IsWhitespace(s[i])
  {
    if s == [] || !IsWhitespace(s[|s| - 1]) then s else TrimRight(s[..|s| - 1])
  }

  function TrimLeft(s: string): (r: string)
    ensures |r| <= |s| && r == s[|s| - |r|..]
    ensures r == [] || !IsWhitespace(r[0])
    ensures forall i :: 0 <= i < |s| - |r| ==> IsWhitespace(s[i])
  {
    if s == [] || !IsWhitespace(s[0]) then s else TrimLeft(s[1..])
  }

  /** Python's `str.strip()`. */
  function Strip(s: string): string {
    TrimLeft(TrimRight(s))
  }

  /**
   * Stripping a text that starts and ends, before a run of whitespace, with
   * non-whitespace characters removes exactly that trailing run.
   */
  lemma StripTrailingRun(body: string, tail: string)
    requires body != [] && !IsWhitespace(body[0]) && !IsWhitespace(body[|body| - 1])
    requires forall i :: 0 <= i < |tail| ==> IsWhitespace(tail[i])
    ensures Strip(body + tail) == body
  {
    var s := body + tail;
    var r := TrimRight(s);
    assert s[|body| - 1] == body[|body| - 1];
    assert |r| >= |body|;
    assert forall i :: |body| <= i < |s| ==> IsWhitespace(s[i]);
    assert r == body;
  }
}
