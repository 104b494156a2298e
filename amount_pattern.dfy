/**
  * The amount of an SMS: the first of two regular expressions that matches the
  * lower-cased message,
  *   /(?:rs\.?|inr|₹)\s*([0-9,]+(?:\.[0-9]{2})?)/   (currency marker first)
  *   /([0-9,]+(?:\.[0-9]{2})?)\s*(?:rs\.?|inr|₹)/   (number first)
  * and then `parseFloat` of the group with its commas removed.  Amounts are
  * counted in hundredths of a rupee.
  */
module AmountPattern {
  import opened Wrappers
  import opened Text
  import opened Scanning

  /** `[0-9,]`: a character of the digit-group run of an amount. */
  predicate IsRunChar(c: char) { IsDigit(c) || c == ',' }

  predicate AllRun(s: string, a: nat, b: nat) {
    a <= b <= |s| && forall i :: a <= i < b ==> IsRunChar(s[i])
  }

  /** End of the longest `[0-9,]` run that starts at `i`. */
  function SkipRun(s: string, i: nat): (j: nat)
    requires i <= |s|
    ensures i <= j <= |s| && AllRun(s, i, j)
    ensures j < |s| ==> !IsRunChar(s[j])
    decreases |s| - i
  {
    if i < |s| && IsRunChar(s[i]) then SkipRun(s, i + 1) else i
  }

  /** `\.[0-9]{2}` matches at `r`. */
  predicate DecimalAt(s: string, r: nat) {
    r + 3 <= |s| && s[r] == '.' && IsDigit(s[r + 1]) && IsDigit(s[r + 2])
  }

  /** `[0-9,]+(?:\.[0-9]{2})?` matches exactly `s[a..b]`. */
  predicate NumberToken(s: string, a: nat, b: nat) {
    || (a < b && AllRun(s, a, b))
    || (a + 3 < b && AllRun(s, a, b - 3) && DecimalAt(s, b - 3))
  }

  /** End of the amount token that the greedy `+` and `?` take from `k`. */
  function TokenEnd(s: string, k: nat): (e: nat)
    requires k < |s| && IsRunChar(s[k])
    ensures NumberToken(s, k, e)
  {
    var r := SkipRun(s, k);
    if DecimalAt(s, r) then r + 3 else r
  }

  /** Every amount token at `k` is at most as long as the greedy one, and a shorter
      one is followed by a run character or by the decimal point. */
  lemma TokenEndIsLongest(s: string, k: nat, e: nat)
    requires NumberToken(s, k, e)
    ensures k < |s| && IsRunChar(s[k])
    ensures e <= TokenEnd(s, k)
    ensures e < TokenEnd(s, k) ==> e < |s| && (IsRunChar(s[e]) || s[e] == '.')
  {
    var r := SkipRun(s, k);
    if !(k < e && AllRun(s, k, e)) {
      var d := e - 3;
      assert d == r;
    }
  }

  /** `rs\.?|inr|₹` matches exactly `s[i..j]`. */
  predicate Marker(s: string, i: nat, j: nat) {
    || (HasPrefixAt(s, i, "rs") && j == i + 2)
    || (HasPrefixAt(s, i, "rs.") && j == i + 3)
    || (HasPrefixAt(s, i, "inr") && j == i + 3)
    || (HasPrefixAt(s, i, "\U{20B9}") && j == i + 1)
  }

  /** A currency marker starts with `r`, `i` or `₹`. */
  lemma MarkerStartsWithLetter(s: string, i: nat, j: nat)
    requires Marker(s, i, j)
    ensures i < |s| && (s[i] == 'r' || s[i] == 'i' || s[i] == '\U{20B9}')
  {
    assert s[i] == "rs"[0] || s[i] == "inr"[0] || s[i] == "\U{20B9}"[0];
  }

  /** Where the currency marker at `i` ends: the alternatives in order, the optional dot taken when present. */
  function MarkerEnd(s: string, i: nat): (r: Option<nat>)
    ensures r.Some? ==> i < r.value <= |s| && Marker(s, i, r.value)
  {
    if HasPrefixAt(s, i, "rs") then Some(if HasPrefixAt(s, i, "rs.") then i + 3 else i + 2)
    else if HasPrefixAt(s, i, "inr") then Some(i + 3)
    else if HasPrefixAt(s, i, "\U{20B9}") then Some(i + 1)
    else None
  }

  /** Whenever some marker matches at `i`, `MarkerEnd` finds one; the only other
      end is that of "rs" when a dot follows it. */
  lemma MarkerEndComplete(s: string, i: nat, j: nat)
    requires Marker(s, i, j)
    ensures MarkerEnd(s, i).Some?
    ensures MarkerEnd(s, i).value == j || (j == i + 2 && s[j] == '.')
  {
    MarkerStartsWithLetter(s, i, j);
    if HasPrefixAt(s, i, "rs.") {
      assert s[i + 2] == "rs."[2];
    }
  }

  // ---------------------------------------------------------------------------
  // The currency-marker-first pattern

  /** `(?:rs\.?|inr|₹)\s*([0-9,]+(?:\.[0-9]{2})?)` matches at `i` with its group at `s[k..e]`. */
  predicate MarkerFirstAt(s: string, i: nat, k: nat, e: nat) {
    exists j: nat | j <= k :: Marker(s, i, j) && AllSpace(s, j, k) && NumberToken(s, k, e)
  }

  /** The group the matcher captures when the marker-first pattern is tried at `i`. */
  function MarkerFirstAttempt(s: string, i: nat): Option<(nat, nat)> {
    match MarkerEnd(s, i)
    case None => None
    case Some(j) =>
      var k := SkipSpaces(s, j);
      if k < |s| && IsRunChar(s[k]) then Some((k, TokenEnd(s, k))) else None
  }

  lemma MarkerFirstAttemptCorrect(s: string, i: nat)
    ensures MarkerFirstAttempt(s, i).None? ==> forall k: nat, e: nat :: !MarkerFirstAt(s, i, k, e)
    ensures MarkerFirstAttempt(s, i).Some? ==>
      var (k, e) := MarkerFirstAttempt(s, i).value;
      && MarkerFirstAt(s, i, k, e)
      && forall k': nat, e': nat :: MarkerFirstAt(s, i, k', e') ==> k' == k && e' <= e
  {
    forall k': nat, e': nat | MarkerFirstAt(s, i, k', e')
      ensures MarkerFirstAttempt(s, i).Some?
      ensures k' == MarkerFirstAttempt(s, i).value.0 && e' <= MarkerFirstAttempt(s, i).value.1
    {
      var j': nat :| j' <= k' && Marker(s, i, j') && AllSpace(s, j', k') && NumberToken(s, k', e');
      TokenEndIsLongest(s, k', e');
      MarkerEndComplete(s, i, j');
      var j := MarkerEnd(s, i).value;
      if j' != j {
        // after "rs" a dot would have to be white space or the first digit of the amount
        assert false;
      }
      SpaceRunBound(s, j, k');
    }
    match MarkerEnd(s, i)
    case None =>
    case Some(j) =>
      var k := SkipSpaces(s, j);
      if k < |s| && IsRunChar(s[k]) {
        assert MarkerFirstAt(s, i, k, TokenEnd(s, k));
      }
  }

  /** The marker-first pattern searched over the whole message. */
  function ScanMarkerFirst(s: string): Option<Capture> {
    match Leftmost((i: nat) => MarkerFirstAttempt(s, i), 0, |s|)
    case None => None
    case Some((i, g)) => Some(Capture(i, g.0, g.1))
  }

  /**
    * The first amount pattern finds the leftmost match, and there the longest
    * amount: the group that the greedy quantifiers capture.
    */
  lemma MarkerFirstLeftmostLongest(s: string)
    ensures ScanMarkerFirst(s).None? ==> forall i: nat, k: nat, e: nat :: !MarkerFirstAt(s, i, k, e)
    ensures ScanMarkerFirst(s).Some? ==>
      var c := ScanMarkerFirst(s).value;
      && MarkerFirstAt(s, c.start, c.from, c.to)
      && (forall i: nat, k: nat, e: nat :: i < c.start ==> !MarkerFirstAt(s, i, k, e))
      && (forall k: nat, e: nat :: MarkerFirstAt(s, c.start, k, e) ==> k == c.from && e <= c.to)
  {
    var attempt := (i: nat) => MarkerFirstAttempt(s, i);
    forall i: nat, k: nat, e: nat | MarkerFirstAt(s, i, k, e)
      ensures ScanMarkerFirst(s).Some? && ScanMarkerFirst(s).value.start <= i
    {
      MarkerFirstAttemptCorrect(s, i);
      assert attempt(i).Some? && i <= |s|;
    }
    if ScanMarkerFirst(s).Some? {
      MarkerFirstAttemptCorrect(s, ScanMarkerFirst(s).value.start);
    }
  }

  // ---------------------------------------------------------------------------
  // The number-first pattern

  /** `([0-9,]+(?:\.[0-9]{2})?)\s*(?:rs\.?|inr|₹)` matches at `i` with its group at `s[i..e]`. */
  predicate NumberFirstAt(s: string, i: nat, e: nat) {
    && NumberToken(s, i, e)
    && exists m: nat, j: nat | m <= j <= |s| :: AllSpace(s, e, m) && Marker(s, m, j)
  }

  /** The end of the group the matcher captures when the number-first pattern is tried at `i`. */
  function NumberFirstAttempt(s: string, i: nat): Option<nat> {
    if i < |s| && IsRunChar(s[i]) then
      var e := TokenEnd(s, i);
      if MarkerEnd(s, SkipSpaces(s, e)).Some? then Some(e) else None
    else None
  }

  lemma NumberFirstAttemptCorrect(s: string, i: nat)
    ensures NumberFirstAttempt(s, i).None? ==> forall e: nat :: !NumberFirstAt(s, i, e)
    ensures NumberFirstAttempt(s, i).Some? ==>
      && NumberFirstAt(s, i, NumberFirstAttempt(s, i).value)
      && forall e: nat :: NumberFirstAt(s, i, e) ==> e == NumberFirstAttempt(s, i).value
  {
    forall e: nat | NumberFirstAt(s, i, e)
      ensures NumberFirstAttempt(s, i) == Some(e)
    {
      var m: nat, j: nat :| m <= j <= |s| && AllSpace(s, e, m) && Marker(s, m, j);
      TokenEndIsLongest(s, i, e);
      MarkerStartsWithLetter(s, m, j);
      SpaceRunBound(s, e, m);
      MarkerEndComplete(s, m, j);
    }
    if NumberFirstAttempt(s, i).Some? {
      var e := TokenEnd(s, i);
      var q := SkipSpaces(s, e);
      var j := MarkerEnd(s, q).value;
      assert AllSpace(s, e, q) && Marker(s, q, j);
    }
  }

  /** The number-first pattern searched over the whole message. */
  function ScanNumberFirst(s: string): Option<Capture> {
    match Leftmost((i: nat) => NumberFirstAttempt(s, i), 0, |s|)
    case None => None
    case Some((i, e)) => Some(Capture(i, i, e))
  }

  /** The second amount pattern finds the leftmost match, and there the only one. */
  lemma NumberFirstLeftmost(s: string)
    ensures ScanNumberFirst(s).None? ==> forall i: nat, e: nat :: !NumberFirstAt(s, i, e)
    ensures ScanNumberFirst(s).Some? ==>
      var c := ScanNumberFirst(s).value;
      && c.from == c.start
      && NumberFirstAt(s, c.start, c.to)
      && (forall i: nat, e: nat :: i < c.start ==> !NumberFirstAt(s, i, e))
      && (forall e: nat :: NumberFirstAt(s, c.start, e) ==> e == c.to)
  {
    var attempt := (i: nat) => NumberFirstAttempt(s, i);
    forall i: nat, e: nat | NumberFirstAt(s, i, e)
      ensures ScanNumberFirst(s).Some? && ScanNumberFirst(s).value.start <= i
    {
      NumberFirstAttemptCorrect(s, i);
      assert attempt(i).Some? && i <= |s|;
    }
    if ScanNumberFirst(s).Some? {
      NumberFirstAttemptCorrect(s, ScanNumberFirst(s).value.start);
    }
  }

  /**
    * `msg.match(p1) || msg.match(p2)`: the number-first pattern is tried only when
    * the marker-first pattern matches nowhere in the message.
    */
  function AmountCapture(s: string): (r: Option<Capture>)
    ensures r.Some? ==> NumberToken(s, r.value.from, r.value.to)
    ensures r.None? <==>
      (forall i: nat, k: nat, e: nat :: !MarkerFirstAt(s, i, k, e)) && (forall i: nat, e: nat :: !NumberFirstAt(s, i, e))
    ensures (exists i: nat, k: nat, e: nat :: MarkerFirstAt(s, i, k, e)) ==> r == ScanMarkerFirst(s)
  {
    MarkerFirstLeftmostLongest(s);
    NumberFirstLeftmost(s);
    match ScanMarkerFirst(s)
    case Some(c) =>
      var j: nat :| j <= c.from && Marker(s, c.start, j) && AllSpace(s, j, c.from) && NumberToken(s, c.from, c.to);
      Some(c)
    case None => ScanNumberFirst(s)
  }

  // ---------------------------------------------------------------------------
  // From the captured text to a number

  predicate AllDigits(u: string) { forall i :: 0 <= i < |u| ==> IsDigit(u[i]) }

  function DigitValue(c: char): nat requires IsDigit(c) { c as nat - '0' as nat }

  /** The value of a string of decimal digits, read left to right. */
  function DigitsValue(u: string): nat
    requires AllDigits(u)
  {
    if u == [] then 0 else DigitsValue(u[..|u| - 1]) * 10 + DigitValue(u[|u| - 1])
  }

  function Digit(n: nat): (c: char)
    requires n < 10
    ensures IsDigit(c) && DigitValue(c) == n
  {
    ('0' as nat + n) as char
  }

  /** The shortest decimal numeral of `n`. */
  function DigitString(n: nat): (u: string)
    ensures AllDigits(u) && u != []
  {
    if n < 10 then [Digit(n)] else DigitString(n / 10) + [Digit(n % 10)]
  }

  lemma {:induction false} DigitStringValue(n: nat)
    ensures DigitsValue(DigitString(n)) == n
  {
    if n >= 10 {
      var u := DigitString(n);
      assert u[..|u| - 1] == DigitString(n / 10);
      DigitStringValue(n / 10);
    }
  }

  /** `t.replace(/,/g, '')`. */
  function StripCommas(t: string): (u: string)
    ensures |u| <= |t|
    ensures forall i :: 0 <= i < |u| ==> u[i] != ','
  {
    if t == [] then []
    else if t[|t| - 1] == ',' then StripCommas(t[..|t| - 1])
    else StripCommas(t[..|t| - 1]) + [t[|t| - 1]]
  }

  lemma {:induction false} StripCommasOfRun(t: string)
    requires forall i :: 0 <= i < |t| ==> IsRunChar(t[i])
    ensures AllDigits(StripCommas(t))
  {
    if t != [] {
      StripCommasOfRun(t[..|t| - 1]);
    }
  }

  lemma {:induction false} StripCommasConcat(t: string, d: string)
    requires forall i :: 0 <= i < |d| ==> d[i] != ','
    ensures StripCommas(t + d) == StripCommas(t) + d
    decreases |d|
  {
    if d != [] {
      var d' := d[..|d| - 1];
      assert (t + d)[..|t + d| - 1] == t + d';
      StripCommasConcat(t, d');
      assert (t + d)[|t + d| - 1] == d[|d| - 1];
      assert StripCommas(t + d) == (StripCommas(t) + d') + [d[|d| - 1]];
      assert d == d' + [d[|d| - 1]];
    } else {
      assert t + d == t;
    }
  }

  /** An amount capture once its commas are gone: digits, with an optional two-digit fraction. */
  predicate AmountText(u: string) {
    || AllDigits(u)
    || (|u| >= 3 && u[|u| - 3] == '.' && AllDigits(u[..|u| - 3]) && IsDigit(u[|u| - 2]) && IsDigit(u[|u| - 1]))
  }

  /** The amount field: no match, `NaN`, or a number of hundredths of a rupee. */
  datatype AmountField = Absent | NotANumber | Value(hundredths: nat) {
    /** JavaScript truthiness of the parsed number: present, not `NaN` and not zero. */
    predicate Truthy() { Value? && hundredths > 0 }
  }

  /** `parseFloat` of a comma-free amount capture, in hundredths; the empty text is `NaN`. */
  function ParseAmountText(u: string): AmountField
    requires AmountText(u)
  {
    if |u| >= 3 && u[|u| - 3] == '.' then
      Value(DigitsValue(u[..|u| - 3]) * 100 + DigitValue(u[|u| - 2]) * 10 + DigitValue(u[|u| - 1]))
    else if u == [] then NotANumber
    else Value(DigitsValue(u) * 100)
  }

  /** The plain text of an amount of `n` hundredths, with two decimals. */
  function AmountString(n: nat): string {
    DigitString(n / 100) + "." + [Digit(n % 100 / 10), Digit(n % 10)]
  }

  /** Parsing the printed form of an amount gives the amount back. */
  lemma ParseAmountTextRoundTrip(n: nat)
    ensures AmountText(AmountString(n))
    ensures ParseAmountText(AmountString(n)) == Value(n)
  {
    var u := AmountString(n);
    assert u[..|u| - 3] == DigitString(n / 100);
    DigitStringValue(n / 100);
  }

  lemma CaptureIsAmountText(s: string, a: nat, b: nat)
    requires NumberToken(s, a, b)
    ensures AmountText(StripCommas(s[a..b]))
  {
    if a < b && AllRun(s, a, b) {
      StripCommasOfRun(s[a..b]);
    } else {
      var d := s[b - 3..b];
      assert s[a..b] == s[a..b - 3] + d;
      StripCommasOfRun(s[a..b - 3]);
      StripCommasConcat(s[a..b - 3], d);
      var u := StripCommas(s[a..b]);
      assert u[..|u| - 3] == StripCommas(s[a..b - 3]);
    }
  }

  /** The amount of a lower-cased message: the first capture, commas removed, read as a number. */
  function AmountOf(s: string): (r: AmountField)
    ensures r.Absent? <==>
      (forall i: nat, k: nat, e: nat :: !MarkerFirstAt(s, i, k, e)) && (forall i: nat, e: nat :: !NumberFirstAt(s, i, e))
  {
    match AmountCapture(s)
    case None => Absent
    case Some(c) =>
      CaptureIsAmountText(s, c.from, c.to);
      ParseAmountText(StripCommas(s[c.from..c.to]))
  }

  /** The grouping comma of "1,234.50" is dropped. */
  lemma GroupingCommaDropped()
    ensures StripCommas("1,234.50") == "1234.50"
  {
    var t := "1,234.50";
    forall n | 1 <= n <= |t| ensures t[..n][..n - 1] == t[..n - 1] { }
    assert StripCommas(t[..0]) == "";
    assert StripCommas(t[..1]) == "1";
    assert StripCommas(t[..2]) == "1";
    assert StripCommas(t[..3]) == "12";
    assert StripCommas(t[..4]) == "123";
    assert StripCommas(t[..5]) == "1234";
    assert StripCommas(t[..6]) == "1234.";
    assert StripCommas(t[..7]) == "1234.5";
    assert StripCommas(t[..8]) == "1234.50";
    assert t[..8] == t;
  }

  /** "1234.50" reads as 123450 paise. */
  lemma RupeesAndPaiseRead()
    ensures ParseAmountText("1234.50") == Value(123450)
  {
    var u := "1234.50";
    assert u[..4] == "1234";
    var d := "1234";
    forall n | 1 <= n <= |d| ensures d[..n][..n - 1] == d[..n - 1] { }
    assert DigitsValue(d[..1]) == 1;
    assert DigitsValue(d[..2]) == 12;
    assert DigitsValue(d[..3]) == 123;
    assert DigitsValue(d[..4]) == 1234;
    assert d[..4] == d;
  }

  /** Commas group the digits and are dropped: "rs.1,234.50" is 1234.50 rupees. */
  lemma CommaGroupedAmount()
    ensures AmountOf("rs.1,234.50") == Value(123450)
  {
    var s := "rs.1,234.50";
    assert MarkerEnd(s, 0) == Some(3);
    assert SkipSpaces(s, 3) == 3;
    assert SkipRun(s, 3) == 8;
    assert TokenEnd(s, 3) == 11;
    assert MarkerFirstAttempt(s, 0) == Some((3, 11));
    assert ScanMarkerFirst(s) == Some(Capture(0, 3, 11));
    assert s[3..11] == "1,234.50";
    GroupingCommaDropped();
    RupeesAndPaiseRead();
  }
}
