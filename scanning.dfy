/**
  * What the three SMS patterns share: the leftmost search of the JavaScript
  * regular expression engine, and maximal runs of a character class.
  */
module Scanning {
  import opened Wrappers
  import opened Text

  /** A match that starts at `start` and whose capture group covers `s[from..to]`. */
  datatype Capture = Capture(start: nat, from: nat, to: nat)

  /**
    * The first position in `from..last` at which `attempt` succeeds, with what it
    * returned: the engine tries a pattern at every start position, left to right,
    * and stops at the first one where it matches.
    */
  function Leftmost<T>(attempt: nat -> Option<T>, from: nat, last: nat): (r: Option<(nat, T)>)
    requires from <= last
    ensures r.Some? ==> from <= r.value.0 <= last && attempt(r.value.0) == Some(r.value.1)
    ensures r.Some? ==> forall i: nat :: from <= i < r.value.0 ==> attempt(i).None?
    ensures r.None? ==> forall i: nat :: from <= i <= last ==> attempt(i).None?
    decreases last - from
  {
    match attempt(from)
    case Some(v) => Some((from, v))
    case None => if from == last then None else Leftmost(attempt, from + 1, last)
  }

  predicate AllSpace(s: string, a: nat, b: nat) {
    a <= b <= |s| && forall i :: a <= i < b ==> IsSpace(s[i])
  }

  /** End of the longest white-space run that starts at `i`: what a greedy `\s*` takes. */
  function SkipSpaces(s: string, i: nat): (j: nat)
    requires i <= |s|
    ensures i <= j <= |s| && AllSpace(s, i, j)
    ensures j < |s| ==> !IsSpace(s[j])
    decreases |s| - i
  {
    if i < |s| && IsSpace(s[i]) then SkipSpaces(s, i + 1) else i
  }

  /** Every white-space run from `i` is a prefix of the longest one. */
  lemma SpaceRunBound(s: string, i: nat, m: nat)
    requires AllSpace(s, i, m)
    ensures m <= SkipSpaces(s, i)
    ensures m < SkipSpaces(s, i) ==> IsSpace(s[m])
  {
  }
}
