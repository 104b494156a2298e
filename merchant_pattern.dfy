/**
  * The merchant of an SMS: the group of
  *   /(?:at|to|from)\s+([a-z0-9\s]+?)(?:\s+on|\s+a\/c|\s+xx|\s+ref|\.|\,|$)/i
  * at its first match in the lower-cased message, trimmed.
  */
module MerchantPattern {
  import opened Wrappers
  import opened Text
  import opened Scanning

  /** `at|to|from` matches exactly `s[i..j]`. */
  predicate Preposition(s: string, i: nat, j: nat) {
    || (HasPrefixAt(s, i, "at") && j == i + 2)
    || (HasPrefixAt(s, i, "to") && j == i + 2)
    || (HasPrefixAt(s, i, "from") && j == i + 4)
  }

  /** Where the preposition at `i` ends; the three words start with different letters. */
  function PrepositionEnd(s: string, i: nat): (r: Option<nat>)
    ensures r.Some? ==> r.value <= |s| && Preposition(s, i, r.value)
  {
    if HasPrefixAt(s, i, "at") || HasPrefixAt(s, i, "to") then Some(i + 2)
    else if HasPrefixAt(s, i, "from") then Some(i + 4)
    else None
  }

  lemma PrepositionEndComplete(s: string, i: nat, j: nat)
    requires Preposition(s, i, j)
    ensures PrepositionEnd(s, i) == Some(j)
  {
    if HasPrefixAt(s, i, "at") { PrefixHead(s, i, "at"); }
    if HasPrefixAt(s, i, "to") { PrefixHead(s, i, "to"); }
    if HasPrefixAt(s, i, "from") { PrefixHead(s, i, "from"); }
  }

  /** `[a-z0-9\s]` under the `i` flag. */
  predicate IsMerchantChar(c: char) { IsAsciiLower(c) || IsAsciiUpper(c) || IsDigit(c) || IsSpace(c) }

  predicate AllMerchant(s: string, a: nat, b: nat) {
    a <= b <= |s| && forall i :: a <= i < b ==> IsMerchantChar(s[i])
  }

  /** `on`, `a/c`, `xx` or `ref` starts at `m`. */
  predicate TerminatorWord(s: string, m: nat) {
    HasPrefixAt(s, m, "on") || HasPrefixAt(s, m, "a/c") || HasPrefixAt(s, m, "xx") || HasPrefixAt(s, m, "ref")
  }

  /** `\s+on|\s+a\/c|\s+xx|\s+ref|\.|\,|$` matches at `e`. */
  predicate TerminatorAt(s: string, e: nat) {
    || e == |s|
    || (e < |s| && (s[e] == '.' || s[e] == ','))
    || exists m: nat | e < m <= |s| :: AllSpace(s, e, m) && TerminatorWord(s, m)
  }

  /** A capture at `s[a..e]` after the preposition that ends at `j`: `\s+`, the group, the terminator. */
  predicate GroupAt(s: string, j: nat, a: nat, e: nat) {
    j < a && AllSpace(s, j, a) && a < e && AllMerchant(s, a, e) && TerminatorAt(s, e)
  }

  /** The merchant pattern matches at `i` with its group at `s[a..e]`. */
  predicate MerchantAt(s: string, i: nat, a: nat, e: nat) {
    exists j: nat | j < a :: Preposition(s, i, j) && GroupAt(s, j, a, e)
  }

  /** The lazy group `[a-z0-9\s]+?` that started at `a`: the first end from `e` on where the terminator matches. */
  function LazyEnd(s: string, a: nat, e: nat): Option<nat>
    requires a < e
    decreases |s| - e
  {
    if e > |s| || !IsMerchantChar(s[e - 1]) then None
    else if TerminatorAt(s, e) then Some(e)
    else LazyEnd(s, a, e + 1)
  }

  lemma {:induction false} LazyEndCorrect(s: string, a: nat, e0: nat)
    requires a < e0 && AllMerchant(s, a, e0 - 1)
    ensures LazyEnd(s, a, e0).Some? ==>
      var e := LazyEnd(s, a, e0).value;
      && e0 <= e && AllMerchant(s, a, e) && TerminatorAt(s, e)
      && forall e': nat :: e0 <= e' < e ==> !TerminatorAt(s, e')
    ensures LazyEnd(s, a, e0).None? ==> forall e: nat :: e0 <= e ==> !(AllMerchant(s, a, e) && TerminatorAt(s, e))
    decreases |s| - e0
  {
    if e0 <= |s| && IsMerchantChar(s[e0 - 1]) && !TerminatorAt(s, e0) {
      LazyEndCorrect(s, a, e0 + 1);
    }
  }

  /** Backtracking into the greedy `\s+`: capture starts tried from `a` down to `j + 1`. */
  function TryCaptureStarts(s: string, j: nat, a: nat): Option<(nat, nat)>
    requires j < a
    decreases a
  {
    match LazyEnd(s, a, a + 1)
    case Some(e) => Some((a, e))
    case None => if a == j + 1 then None else TryCaptureStarts(s, j, a - 1)
  }

  lemma {:induction false} TryCaptureStartsCorrect(s: string, j: nat, a0: nat)
    requires j < a0 && AllSpace(s, j, a0)
    ensures TryCaptureStarts(s, j, a0).Some? ==>
      var (a, e) := TryCaptureStarts(s, j, a0).value;
      && a <= a0 && GroupAt(s, j, a, e)
      && (forall a': nat, e': nat :: a < a' <= a0 ==> !GroupAt(s, j, a', e'))
      && (forall e': nat :: GroupAt(s, j, a, e') ==> e <= e')
    ensures TryCaptureStarts(s, j, a0).None? ==> forall a': nat, e': nat :: a' <= a0 ==> !GroupAt(s, j, a', e')
    decreases a0
  {
    LazyEndCorrect(s, a0, a0 + 1);
    if LazyEnd(s, a0, a0 + 1).None? && a0 != j + 1 {
      TryCaptureStartsCorrect(s, j, a0 - 1);
    }
  }

  /** The group the matcher captures when the merchant pattern is tried at `i`. */
  function MerchantAttempt(s: string, i: nat): Option<(nat, nat)> {
    match PrepositionEnd(s, i)
    case None => None
    case Some(j) =>
      var top := SkipSpaces(s, j);
      if top == j then None else TryCaptureStarts(s, j, top)
  }

  lemma MerchantAttemptCorrect(s: string, i: nat)
    ensures MerchantAttempt(s, i).None? ==> forall a: nat, e: nat :: !MerchantAt(s, i, a, e)
    ensures MerchantAttempt(s, i).Some? ==>
      var (a, e) := MerchantAttempt(s, i).value;
      && MerchantAt(s, i, a, e)
      && forall a': nat, e': nat :: MerchantAt(s, i, a', e') ==> a' <= a && (a' == a ==> e <= e')
  {
    match PrepositionEnd(s, i)
    case None =>
      forall a: nat, e: nat | MerchantAt(s, i, a, e) ensures false {
        var j: nat :| j < a && Preposition(s, i, j) && GroupAt(s, j, a, e);
        PrepositionEndComplete(s, i, j);
      }
    case Some(j) =>
      var top := SkipSpaces(s, j);
      forall a': nat, e': nat | MerchantAt(s, i, a', e')
        ensures top > j && GroupAt(s, j, a', e') && a' <= top
      {
        var j': nat :| j' < a' && Preposition(s, i, j') && GroupAt(s, j', a', e');
        PrepositionEndComplete(s, i, j');
        SpaceRunBound(s, j, a');
      }
      if top > j {
        TryCaptureStartsCorrect(s, j, top);
        if MerchantAttempt(s, i).Some? {
          var (a, e) := MerchantAttempt(s, i).value;
          assert Preposition(s, i, j) && GroupAt(s, j, a, e);
        }
      }
  }

  /** The merchant pattern searched over the whole message. */
  function ScanMerchant(s: string): Option<Capture> {
    match Leftmost((i: nat) => MerchantAttempt(s, i), 0, |s|)
    case None => None
    case Some((i, g)) => Some(Capture(i, g.0, g.1))
  }

  /**
    * The merchant scanner returns the leftmost match; there, the capture start
    * after the longest `\s+` that still admits a match, and for it the shortest
    * group that `+?` allows.
    */
  lemma MerchantLeftmostPreferred(s: string)
    ensures ScanMerchant(s).None? ==> forall i: nat, a: nat, e: nat :: !MerchantAt(s, i, a, e)
    ensures ScanMerchant(s).Some? ==>
      var c := ScanMerchant(s).value;
      && MerchantAt(s, c.start, c.from, c.to)
      && (forall i: nat, a: nat, e: nat :: i < c.start ==> !MerchantAt(s, i, a, e))
      && (forall a: nat, e: nat :: MerchantAt(s, c.start, a, e) ==> a <= c.from && (a == c.from ==> c.to <= e))
  {
    var attempt := (i: nat) => MerchantAttempt(s, i);
    forall i: nat, a: nat, e: nat | MerchantAt(s, i, a, e)
      ensures ScanMerchant(s).Some? && ScanMerchant(s).value.start <= i
    {
      MerchantAttemptCorrect(s, i);
      var j: nat :| j < a && Preposition(s, i, j) && GroupAt(s, j, a, e);
      assert attempt(i).Some? && i <= |s|;
    }
    if ScanMerchant(s).Some? {
      MerchantAttemptCorrect(s, ScanMerchant(s).value.start);
    }
  }

  /** The merchant of a lower-cased message: the trimmed group, or `None` when the pattern matches nowhere. */
  function MerchantOf(s: string): (r: Option<string>)
    ensures r.None? <==> forall i: nat, a: nat, e: nat :: !MerchantAt(s, i, a, e)
    ensures r.Some? ==> r.value == [] || (!IsSpace(r.value[0]) && !IsSpace(r.value[|r.value| - 1]))
  {
    MerchantLeftmostPreferred(s);
    match ScanMerchant(s)
    case None => None
    case Some(c) => Some(Trim(s[c.from..c.to]))
  }
}
