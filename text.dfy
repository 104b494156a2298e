/**
  * Character classes and string operations of the JavaScript runtime that the
  * source relies on: `\s`, `\d`, `toLowerCase`, `toUpperCase`, `includes` and `trim`.
  * Strings are sequences of characters, whose lengths and positions are
  * JavaScript's UTF-16 ones for text inside the Basic Multilingual Plane;
  * case mapping covers the ASCII letters.
  */
module Text {

  /** ECMAScript WhiteSpace and LineTerminator: what `\s` matches and what `trim` removes. */
  predicate IsSpace(c: char) {
    || c == '\t' || c == '\n' || c == '\U{B}' || c == '\U{C}' || c == '\r' || c == ' '
    || c == '\U{A0}' || c == '\U{1680}' || ('\U{2000}' <= c <= '\U{200A}')
    || c == '\U{2028}' || c == '\U{2029}' || c == '\U{202F}' || c == '\U{205F}'
    || c == '\U{3000}' || c == '\U{FEFF}'
  }

  /** ECMAScript LineTerminator: the characters that `.` in a regular expression does not match. */
  predicate IsLineTerminator(c: char) {
    c == '\n' || c == '\r' || c == '\U{2028}' || c == '\U{2029}'
  }

  /** `\d` without the `u` flag: the ASCII digits only. */
  predicate IsDigit(c: char) { '0' <= c <= '9' }

  predicate IsAsciiLower(c: char) { 'a' <= c <= 'z' }

  predicate IsAsciiUpper(c: char) { 'A' <= c <= 'Z' }

  function LowerChar(c: char): char {
    if IsAsciiUpper(c) then (c as int + 32) as char else c
  }

  function UpperChar(c: char): char {
    if IsAsciiLower(c) then (c as int - 32) as char else c
  }

  /** `String.prototype.toLowerCase` on ASCII letters. */
  function Lower(s: string): (r: string)
    ensures |r| == |s|
    ensures forall i :: 0 <= i < |s| ==> r[i] == LowerChar(s[i])
  {
    seq(|s|, i requires 0 <= i < |s| => LowerChar(s[i]))
  }

  /** `String.prototype.toUpperCase` on ASCII letters. */
  function Upper(s: string): (r: string)
    ensures |r| == |s|
    ensures forall i :: 0 <= i < |s| ==> r[i] == UpperChar(s[i])
  {
    seq(|s|, i requires 0 <= i < |s| => UpperChar(s[i]))
  }

  /** The pattern `p` occurs in `s` starting at index `i`. */
  predicate HasPrefixAt(s: string, i: nat, p: string) {
    i + |p| <= |s| && forall k :: i <= k < i + |p| ==> s[k] == p[k - i]
  }

  /** The first character of an occurrence is the first character of the pattern. */
  lemma PrefixHead(s: string, i: nat, p: string)
    requires HasPrefixAt(s, i, p) && p != []
    ensures i < |s| && s[i] == p[0]
  {
    assert s[i] == p[i - i];
  }

  /** `s.includes(p)`. */
  predicate Contains(s: string, p: string) {
    exists i: nat | i <= |s| :: HasPrefixAt(s, i, p)
  }

  /** `ps.some(p => s.includes(p))`, scanning the list from the front. */
  function AnyContained(s: string, ps: seq<string>): (r: bool)
    ensures r <==> exists k :: 0 <= k < |ps| && Contains(s, ps[k])
  {
    if |ps| == 0 then false
    else if Contains(s, ps[0]) then true
    else
      var rest := AnyContained(s, ps[1..]);
      assert forall k :: 1 <= k < |ps| ==> ps[k] == ps[1..][k - 1];
      rest
  }

  /** Index of the first character of `s` that is not white space (`|s|` if none). */
  function LeadingSpaces(s: string): (n: nat)
    ensures n <= |s|
    ensures forall i :: 0 <= i < n ==> IsSpace(s[i])
    ensures n < |s| ==> !IsSpace(s[n])
  {
    if |s| == 0 || !IsSpace(s[0]) then 0
    else 1 + LeadingSpaces(s[1..])
  }

  /**
    * Where the text of `s[a..e]` ends once its trailing white space is dropped:
    * only white space from there to `e`, and the character before it is not.
    */
  function TrailingEnd(s: string, a: nat, e: nat): (k: nat)
    requires a <= e <= |s|
    ensures a <= k <= e
    ensures forall i :: k <= i < e ==> IsSpace(s[i])
    ensures k > a ==> !IsSpace(s[k - 1])
    decreases e
  {
    if e == a || !IsSpace(s[e - 1]) then e else TrailingEnd(s, a, e - 1)
  }

  /**
    * `String.prototype.trim`: `s` without its leading and trailing white space.
    * The result is the slice of `s` that starts after the leading white space and
    * leaves only white space behind it.
    */
  function Trim(s: string): (r: string)
    ensures LeadingSpaces(s) + |r| <= |s| && s[LeadingSpaces(s)..LeadingSpaces(s) + |r|] == r
    ensures forall i :: LeadingSpaces(s) + |r| <= i < |s| ==> IsSpace(s[i])
    ensures r == [] || (!IsSpace(r[0]) && !IsSpace(r[|r| - 1]))
    ensures r == [] <==> forall i :: 0 <= i < |s| ==> IsSpace(s[i])
  {
    var a := LeadingSpaces(s);
    var e := TrailingEnd(s, a, |s|);
    assert a < |s| ==> e > a;
    s[a..e]
  }

  lemma {:induction false} LowerConcat(a: string, b: string)
    ensures Lower(a + b) == Lower(a) + Lower(b)
  {
    assert forall i :: 0 <= i < |a + b| ==> Lower(a + b)[i] == (Lower(a) + Lower(b))[i];
  }

  lemma {:induction false} UpperConcat(a: string, b: string)
    ensures Upper(a + b) == Upper(a) + Upper(b)
  {
    assert forall i :: 0 <= i < |a + b| ==> Upper(a + b)[i] == (Upper(a) + Upper(b))[i];
  }

  /** Upper-casing forgets whether a letter was lower-cased first. */
  lemma UpperOfLower(s: string)
    ensures Upper(Lower(s)) == Upper(s)
  {
    assert forall i :: 0 <= i < |s| ==> Upper(Lower(s))[i] == Upper(s)[i];
  }

  /** A string is contained in any string that has it in the middle. */
  lemma ContainedInMiddle(pre: string, p: string, post: string)
    ensures Contains(pre + p + post, p)
  {
    var s := pre + p + post;
    assert forall k :: |pre| <= k < |pre| + |p| ==> s[k] == p[k - |pre|];
    assert HasPrefixAt(s, |pre|, p);
  }

  /** The empty string contains no non-empty pattern. */
  lemma EmptyContainsNothing(p: string)
    requires p != []
    ensures !Contains([], p)
  {
  }
}
