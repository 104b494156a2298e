/**
  * The account-number hint of an SMS: the four digits captured by
  *   /(?:a\/c|ac|account|card)[\s\*]*(?:xx)?(\d{4})/i
  * at its first match in the lower-cased message.
  */
module AccountPattern {
  import opened Wrappers
  import opened Text
  import opened Scanning

  /** `a/c|ac|account|card` matches exactly `s[i..j]`. */
  predicate AccountWord(s: string, i: nat, j: nat) {
    || (HasPrefixAt(s, i, "a/c") && j == i + 3)
    || (HasPrefixAt(s, i, "ac") && j == i + 2)
    || (HasPrefixAt(s, i, "account") && j == i + 7)
    || (HasPrefixAt(s, i, "card") && j == i + 4)
  }

  /** `[\s\*]`. */
  predicate IsMaskChar(c: char) { IsSpace(c) || c == '*' }

  predicate AllMask(s: string, a: nat, b: nat) {
    a <= b <= |s| && forall i :: a <= i < b ==> IsMaskChar(s[i])
  }

  /** End of the longest `[\s\*]` run that starts at `i`. */
  function SkipMask(s: string, i: nat): (j: nat)
    requires i <= |s|
    ensures i <= j <= |s| && AllMask(s, i, j)
    ensures j < |s| ==> !IsMaskChar(s[j])
    decreases |s| - i
  {
    if i < |s| && IsMaskChar(s[i]) then SkipMask(s, i + 1) else i
  }

  /** `\d{4}` matches at `d`. */
  predicate FourDigitsAt(s: string, d: nat) {
    d + 4 <= |s| && IsDigit(s[d]) && IsDigit(s[d + 1]) && IsDigit(s[d + 2]) && IsDigit(s[d + 3])
  }

  /** `[\s\*]*(?:xx)?(\d{4})` matches from `j` with its group at `s[d..d + 4]`. */
  predicate MaskedDigits(s: string, j: nat, d: nat) {
    exists m: nat | j <= m <= d ::
      AllMask(s, j, m) && (d == m || (d == m + 2 && HasPrefixAt(s, m, "xx"))) && FourDigitsAt(s, d)
  }

  /** The account pattern matches at `i` with its group at `s[d..d + 4]`. */
  predicate AccountAt(s: string, i: nat, d: nat) {
    exists j: nat | j <= d :: AccountWord(s, i, j) && MaskedDigits(s, j, d)
  }

  /** `[\s\*]*(?:xx)?(\d{4})` after the keyword that ends at `j`: greedy `[\s\*]*`, then `xx` if it leads to digits. */
  function DigitsAfterWord(s: string, j: nat): Option<nat>
    requires j <= |s|
  {
    var m := SkipMask(s, j);
    if HasPrefixAt(s, m, "xx") && FourDigitsAt(s, m + 2) then Some(m + 2)
    else if FourDigitsAt(s, m) then Some(m)
    else None
  }

  lemma DigitsAfterWordCorrect(s: string, j: nat)
    requires j <= |s|
    ensures DigitsAfterWord(s, j).Some? ==> MaskedDigits(s, j, DigitsAfterWord(s, j).value)
    ensures forall d: nat :: MaskedDigits(s, j, d) ==> DigitsAfterWord(s, j) == Some(d)
  {
    var top := SkipMask(s, j);
    forall d: nat | MaskedDigits(s, j, d)
      ensures DigitsAfterWord(s, j) == Some(d)
    {
      var m: nat :| j <= m <= d && AllMask(s, j, m) && (d == m || (d == m + 2 && HasPrefixAt(s, m, "xx"))) && FourDigitsAt(s, d);
      if d == m + 2 && HasPrefixAt(s, m, "xx") {
        PrefixHead(s, m, "xx");
      }
      if HasPrefixAt(s, top, "xx") {
        PrefixHead(s, top, "xx");
      }
    }
    if DigitsAfterWord(s, j).Some? {
      assert AllMask(s, j, top);
    }
  }

  /** The group the matcher captures when the account pattern is tried at `i`, the keywords in their order. */
  function AccountAttempt(s: string, i: nat): Option<nat> {
    if HasPrefixAt(s, i, "a/c") && DigitsAfterWord(s, i + 3).Some? then DigitsAfterWord(s, i + 3)
    else if HasPrefixAt(s, i, "ac") && DigitsAfterWord(s, i + 2).Some? then DigitsAfterWord(s, i + 2)
    else if HasPrefixAt(s, i, "account") && DigitsAfterWord(s, i + 7).Some? then DigitsAfterWord(s, i + 7)
    else if HasPrefixAt(s, i, "card") && DigitsAfterWord(s, i + 4).Some? then DigitsAfterWord(s, i + 4)
    else None
  }

  /** "ac" never leads to a match where "account" is written: a `c` follows it. */
  lemma AcInsideAccount(s: string, i: nat)
    requires HasPrefixAt(s, i, "account")
    ensures DigitsAfterWord(s, i + 2).None?
  {
    assert s[i + 2] == "account"[2];
    assert SkipMask(s, i + 2) == i + 2;
    if HasPrefixAt(s, i + 2, "xx") {
      PrefixHead(s, i + 2, "xx");
    }
  }

  /** The leading characters of each keyword where it occurs. */
  lemma WordHeads(s: string, i: nat)
    ensures HasPrefixAt(s, i, "a/c") ==> s[i] == 'a' && s[i + 1] == '/'
    ensures HasPrefixAt(s, i, "ac") ==> s[i] == 'a' && s[i + 1] == 'c'
    ensures HasPrefixAt(s, i, "account") ==> s[i] == 'a' && s[i + 1] == 'c'
    ensures HasPrefixAt(s, i, "card") ==> s[i] == 'c'
  {
    if HasPrefixAt(s, i, "a/c") { assert s[i + 1] == "a/c"[1]; }
    if HasPrefixAt(s, i, "ac") { assert s[i + 1] == "ac"[1]; }
    if HasPrefixAt(s, i, "account") { assert s[i + 1] == "account"[1]; }
    if HasPrefixAt(s, i, "card") { PrefixHead(s, i, "card"); }
  }

  /** The keyword alternatives never compete: at most one of them can lead to a match. */
  lemma AccountAttemptComplete(s: string, i: nat, j: nat, d: nat)
    requires AccountWord(s, i, j) && MaskedDigits(s, j, d)
    ensures AccountAttempt(s, i) == Some(d)
  {
    DigitsAfterWordCorrect(s, j);
    assert DigitsAfterWord(s, j) == Some(d);
    WordHeads(s, i);
    if HasPrefixAt(s, i, "account") {
      AcInsideAccount(s, i);
    }
  }

  lemma AccountAttemptCorrect(s: string, i: nat)
    ensures AccountAttempt(s, i).None? ==> forall d: nat :: !AccountAt(s, i, d)
    ensures AccountAttempt(s, i).Some? ==>
      && AccountAt(s, i, AccountAttempt(s, i).value)
      && forall d: nat :: AccountAt(s, i, d) ==> d == AccountAttempt(s, i).value
  {
    forall d: nat | AccountAt(s, i, d)
      ensures AccountAttempt(s, i) == Some(d)
    {
      var j: nat :| j <= d && AccountWord(s, i, j) && MaskedDigits(s, j, d);
      AccountAttemptComplete(s, i, j, d);
    }
    if AccountAttempt(s, i).Some? {
      var j :=
        if HasPrefixAt(s, i, "a/c") && DigitsAfterWord(s, i + 3).Some? then i + 3
        else if HasPrefixAt(s, i, "ac") && DigitsAfterWord(s, i + 2).Some? then i + 2
        else if HasPrefixAt(s, i, "account") && DigitsAfterWord(s, i + 7).Some? then i + 7
        else i + 4;
      DigitsAfterWordCorrect(s, j);
      assert AccountWord(s, i, j) && MaskedDigits(s, j, AccountAttempt(s, i).value);
    }
  }

  /** The account pattern searched over the whole message. */
  function ScanAccount(s: string): Option<Capture> {
    match Leftmost((i: nat) => AccountAttempt(s, i), 0, |s|)
    case None => None
    case Some((i, d)) => Some(Capture(i, d, d + 4))
  }

  /** The account scanner returns the leftmost match, which is the only one at its position. */
  lemma AccountLeftmost(s: string)
    ensures ScanAccount(s).None? ==> forall i: nat, d: nat :: !AccountAt(s, i, d)
    ensures ScanAccount(s).Some? ==>
      var c := ScanAccount(s).value;
      && c.to == c.from + 4
      && AccountAt(s, c.start, c.from)
      && (forall i: nat, d: nat :: i < c.start ==> !AccountAt(s, i, d))
      && (forall d: nat :: AccountAt(s, c.start, d) ==> d == c.from)
  {
    var attempt := (i: nat) => AccountAttempt(s, i);
    forall i: nat, d: nat | AccountAt(s, i, d)
      ensures ScanAccount(s).Some? && ScanAccount(s).value.start <= i
    {
      AccountAttemptCorrect(s, i);
      var j: nat :| j <= d && AccountWord(s, i, j) && MaskedDigits(s, j, d);
      assert attempt(i).Some? && i <= |s|;
    }
    if ScanAccount(s).Some? {
      AccountAttemptCorrect(s, ScanAccount(s).value.start);
    }
  }

  lemma AccountAtDigits(s: string, i: nat, d: nat)
    requires AccountAt(s, i, d)
    ensures FourDigitsAt(s, d)
  {
    var j: nat :| j <= d && AccountWord(s, i, j) && MaskedDigits(s, j, d);
  }

  /** What the hint needs of the scan: it fails only without a match, and a match ends in four digits. */
  lemma AccountScanDigits(s: string)
    ensures ScanAccount(s).None? <==> forall i: nat, d: nat :: !AccountAt(s, i, d)
    ensures ScanAccount(s).Some? ==> FourDigitsAt(s, ScanAccount(s).value.from)
  {
    AccountLeftmost(s);
    if ScanAccount(s).Some? {
      var c := ScanAccount(s).value;
      AccountAtDigits(s, c.start, c.from);
    }
  }

  /** The account-number hint of a lower-cased message: the four digits of the first match. */
  function AccountHintOf(s: string): (r: Option<string>)
    ensures r.None? <==> forall i: nat, d: nat :: !AccountAt(s, i, d)
    ensures r.Some? ==> |r.value| == 4 && FourDigitsAt(r.value, 0)
  {
    AccountScanDigits(s);
    match ScanAccount(s)
    case None => None
    case Some(c) => Some([s[c.from], s[c.from + 1], s[c.from + 2], s[c.from + 3]])
  }
}
