/**
 * The JavaScript string operations the pages use: `toLowerCase`, `includes`,
 * `startsWith` and `trim`. Letter case and white space are modelled for ASCII only.
 */
module JsText {

  /** `toLowerCase` on one character: the ASCII capitals become small letters. */
  function Lower(c: char): char {
    if 'A' <= c <= 'Z' then (c as int + 32) as char else c
  }

  /** `toLowerCase` on a string, character by character. */
  function LowerStr(s: string): string {
    seq(|s|, i requires 0 <= i < |s| => Lower(s[i]))
  }

  /** `sub` occurs in `s` starting at index `i`. */
  ghost predicate OccursAt(s: string, sub: string, i: int) {
    0 <= i && i + |sub| <= |s| && s[i..i + |sub|] == sub
  }

  /** `s.startsWith(prefix)`: `s` is `prefix` followed by something. */
  function StartsWith(s: string, prefix: string): (r: bool)
    ensures r <==> OccursAt(s, prefix, 0)
    ensures r <==> exists rest :: s == prefix + rest
  {
    var r := |prefix| <= |s| && s[..|prefix|] == prefix;
    assert r ==> s == prefix + s[|prefix|..];
    assert forall rest :: s == prefix + rest ==> s[..|prefix|] == prefix;
    r
  }

  /** `s.includes(sub)`: some window of `s` equals `sub` (always true for the empty `sub`). */
  function Includes(s: string, sub: string): (r: bool)
    ensures r <==> exists i :: OccursAt(s, sub, i)
    decreases |s|
  {
    if StartsWith(s, sub) then true
    else if s == [] then false
    else
      ShiftOccurrence(s, sub);
      Includes(s[1..], sub)
  }

  /** When `sub` is not a prefix of a non-empty `s`, it occurs in `s` iff it occurs in the tail. */
  lemma ShiftOccurrence(s: string, sub: string)
    requires s != [] && !OccursAt(s, sub, 0)
    ensures (exists i :: OccursAt(s[1..], sub, i)) <==> (exists i :: OccursAt(s, sub, i))
  {
    if i :| OccursAt(s[1..], sub, i) {
      assert s[1..][i..i + |sub|] == s[i + 1..i + 1 + |sub|];
      assert OccursAt(s, sub, i + 1);
    }
    if i :| OccursAt(s, sub, i) {
      assert i > 0;
      assert s[1..][i - 1..i - 1 + |sub|] == s[i..i + |sub|];
      assert OccursAt(s[1..], sub, i - 1);
    }
  }

  /** The characters `trim` removes: ASCII space, tab, line feed, carriage return, vertical tab, form feed. */
  predicate IsSpace(c: char) {
    c == ' ' || c == '\t' || c == '\n' || c == '\r' || c == '\U{000B}' || c == '\U{000C}'
  }

  /** Every character of `s` is white space (the strings whose `trim()` is empty, as proved in `Trim`). */
  ghost predicate Blank(s: string) {
    forall k :: 0 <= k < |s| ==> IsSpace(s[k])
  }

  /** The number of white-space characters `s` begins with. */
  function LeadingSpaces(s: string): (n: nat)
    ensures n <= |s|
    ensures forall k :: 0 <= k < n ==> IsSpace(s[k])
    ensures n < |s| ==> !IsSpace(s[n])
    decreases |s|
  {
    if s != [] && IsSpace(s[0]) then 1 + LeadingSpaces(s[1..]) else 0
  }

  /** The index where the white space that `s` ends with begins. */
  function TrailingStart(s: string): (n: nat)
    ensures n <= |s|
    ensures forall k :: n <= k < |s| ==> IsSpace(s[k])
    ensures 0 < n ==> !IsSpace(s[n - 1])
    decreases |s|
  {
    if s != [] && IsSpace(s[|s| - 1]) then TrailingStart(s[..|s| - 1]) else |s|
  }

  /** `r` is `s[i..j]`, and only white space lies outside that window. */
  ghost predicate TrimmedBetween(s: string, r: string, i: int, j: int) {
    0 <= i <= j <= |s| && r == s[i..j]
    && (forall k :: 0 <= k < i ==> IsSpace(s[k]))
    && (forall k :: j <= k < |s| ==> IsSpace(s[k]))
  }

  /** `trim`: `s` without its leading and trailing white space. */
  function Trim(s: string): (r: string)
    ensures exists i, j :: TrimmedBetween(s, r, i, j)
    ensures r != [] ==> !IsSpace(r[0]) && !IsSpace(r[|r| - 1])
    ensures r == [] <==> Blank(s)
  {
    var i := LeadingSpaces(s);
    var j := if i == |s| then |s| else TrailingStart(s);
    assert TrimmedBetween(s, s[i..j], i, j);
    s[i..j]
  }

  /** Trimming a trimmed string changes nothing. */
  lemma TrimIdempotent(s: string)
    ensures Trim(Trim(s)) == Trim(s)
  {
  }
}
