/**
  * The SMS parser service: decides whether a text message from a bank is a
  * transaction and, if so, records what it could extract from it.
  *
  * The sender must contain a known bank code (case-insensitively) and the message
  * must yield a non-zero amount; only then is a row stored.  Direction, merchant,
  * account hint and category are best-effort, and a confidence score in tenths
  * (5..10) summarises how much was found.
  */
module SmsParser {
  import opened Wrappers
  import opened Text
  import opened AmountPattern
  import opened MerchantPattern
  import opened AccountPattern
  import opened TransactionModel

  const BANK_SENDERS: seq<string> :=
    ["HDFCBK", "ICICIBK", "SBIIN", "AXISBK", "KOTAKBK", "PNBSMS", "BOIIND", "UNIBKS", "IDFCFB", "YESBNK"]

  const DEBIT_KEYWORDS: seq<string> := ["debited", "withdrawn", "spent", "paid", "purchase", "debit"]

  const CREDIT_KEYWORDS: seq<string> := ["credited", "received", "deposited", "refund", "credit"]

  /** The keyword groups of category inference, in the order they are tested. */
  const CATEGORY_RULES: seq<(Category, seq<string>)> := [
    (Food, ["swiggy", "zomato", "restaurant", "food", "cafe", "pizza", "burger"]),
    (Transportation, ["uber", "ola", "rapido", "metro", "bus", "petrol", "fuel"]),
    (Shopping, ["amazon", "flipkart", "myntra", "ajio", "shop", "store"]),
    (Entertainment, ["netflix", "prime", "hotstar", "spotify", "movie", "pvr", "inox"]),
    (Groceries, ["bigbasket", "dmart", "grocery", "vegetables"]),
    (Bills, ["electricity", "water", "gas", "bill", "recharge"]),
    (Healthcare, ["hospital", "clinic", "pharmacy", "medicine", "doctor"])
  ]

  /** Confidence is counted in tenths: 0.5 is 5, 1.0 is 10. */
  const BASE_CONFIDENCE: nat := 5
  const MAX_CONFIDENCE: nat := 10

  /** What the extractor reports about one message. */
  datatype ParsedSms = ParsedSms(
    amount: AmountField,
    direction: Option<Direction>,
    merchant: Option<string>,
    category: Option<Category>,
    accountNumberHint: Option<string>,
    confidence: nat)

  /** A row of the `sms_transactions` table as `parseSMS` inserts it. */
  datatype SmsTransactionRow = SmsTransactionRow(
    userId: string,
    rawSms: string,
    sender: string,
    receivedAt: int,
    parsedAmount: AmountField,
    parsedType: Option<Direction>,
    parsedMerchant: Option<string>,
    parsedCategory: Option<Category>,
    accountNumberHint: Option<string>,
    confidenceScore: nat,
    isProcessed: bool,
    transactionId: Option<string>)

  // ---------------------------------------------------------------------------
  // The pure parts

  /** The upper-cased sender contains one of the bank codes. */
  predicate IsBankSender(sender: string) {
    AnyContained(Upper(sender), BANK_SENDERS)
  }

  /** A sender that carries a bank code anywhere, in upper or lower case, is a bank. */
  lemma BankCodeAnywhereQualifies(pre: string, k: nat, post: string)
    requires k < |BANK_SENDERS|
    ensures IsBankSender(pre + BANK_SENDERS[k] + post)
    ensures IsBankSender(pre + Lower(BANK_SENDERS[k]) + post)
  {
    var code := BANK_SENDERS[k];
    assert Upper(code) == code;
    assert Upper(Lower(code)) == code by {
      UpperOfLower(code);
    }
    UpperConcat(pre + code, post);
    UpperConcat(pre, code);
    ContainedInMiddle(Upper(pre), code, Upper(post));
    UpperConcat(pre + Lower(code), post);
    UpperConcat(pre, Lower(code));
  }

  /** Whether a sender is a bank does not depend on letter case. */
  lemma BankSenderIgnoresCase(sender: string)
    ensures IsBankSender(Lower(sender)) == IsBankSender(sender)
    ensures IsBankSender(Upper(sender)) == IsBankSender(sender)
  {
    UpperOfLower(sender);
    assert Upper(Upper(sender)) == Upper(sender);
  }

  /** DEBIT if a debit keyword occurs, else CREDIT if a credit keyword occurs. */
  function DirectionOf(msg: string): Option<Direction> {
    if AnyContained(msg, DEBIT_KEYWORDS) then Some(Debit)
    else if AnyContained(msg, CREDIT_KEYWORDS) then Some(Credit)
    else None
  }

  /** A debit keyword decides the direction, whatever else the message says. */
  lemma DebitKeywordWins(pre: string, k: nat, post: string)
    requires k < |DEBIT_KEYWORDS|
    ensures DirectionOf(pre + DEBIT_KEYWORDS[k] + post) == Some(Debit)
  {
    ContainedInMiddle(pre, DEBIT_KEYWORDS[k], post);
  }

  /** Without any debit keyword, a credit keyword makes the message a credit. */
  lemma CreditKeywordWithoutDebit(pre: string, k: nat, post: string)
    requires k < |CREDIT_KEYWORDS|
    requires !AnyContained(pre + CREDIT_KEYWORDS[k] + post, DEBIT_KEYWORDS)
    ensures DirectionOf(pre + CREDIT_KEYWORDS[k] + post) == Some(Credit)
  {
    ContainedInMiddle(pre, CREDIT_KEYWORDS[k], post);
  }

  /** The category of the first rule, in order, that has a keyword inside `m`. */
  function FirstMatchingRule(m: string, rules: seq<(Category, seq<string>)>): (r: Option<Category>)
    ensures r.None? <==> forall k :: 0 <= k < |rules| ==> !AnyContained(m, rules[k].1)
    ensures r.Some? ==>
      exists k ::
        && 0 <= k < |rules| && rules[k].0 == r.value && AnyContained(m, rules[k].1)
        && (forall k' :: 0 <= k' < k ==> !AnyContained(m, rules[k'].1))
  {
    if rules == [] then None
    else if AnyContained(m, rules[0].1) then Some(rules[0].0)
    else
      var r := FirstMatchingRule(m, rules[1..]);
      assert forall k :: 1 <= k < |rules| ==> rules[k] == rules[1..][k - 1];
      if r.Some? then
        var k :| 0 <= k < |rules[1..]| && rules[1..][k].0 == r.value && AnyContained(m, rules[1..][k].1)
          && (forall k' :: 0 <= k' < k ==> !AnyContained(m, rules[1..][k'].1));
        assert rules[k + 1].0 == r.value && AnyContained(m, rules[k + 1].1);
        r
      else r
  }

  /** `inferCategory`: the first keyword group, in the fixed order, found in the lower-cased merchant. */
  function InferCategory(merchant: string): Option<Category> {
    FirstMatchingRule(Lower(merchant), CATEGORY_RULES)
  }

  /** Every inferred category is one of the seven expense groups of the table. */
  lemma InferredCategoryIsExpenseGroup(merchant: string)
    ensures InferCategory(merchant).Some? ==>
      InferCategory(merchant).value in {Food, Transportation, Shopping, Entertainment, Groceries, Bills, Healthcare}
    ensures InferCategory(merchant).Some? ==> !InferCategory(merchant).value.IsIncome()
  {
  }

  /** An empty merchant, which is what a missing one becomes, gets no category. */
  lemma EmptyMerchantHasNoCategory()
    ensures InferCategory("").None?
  {
    assert Lower("") == [];
    forall k | 0 <= k < |CATEGORY_RULES| ensures !AnyContained([], CATEGORY_RULES[k].1) {
      var words := CATEGORY_RULES[k].1;
      assert forall w :: 0 <= w < |words| ==> words[w] != [];
    }
  }

  /** The groups are tested in order: a food word wins over a transport word in the same name. */
  lemma FoodTestedBeforeTransport()
    ensures InferCategory("Uber Eats Pizza") == Some(Food)
  {
    var m := Lower("Uber Eats Pizza");
    assert m == "uber eats pizza";
    assert HasPrefixAt(m, 10, "pizza");
  }

  /** Keywords match anywhere inside a word: a shop called "Gola" falls under transport ("ola"). */
  lemma KeywordsMatchInsideWords()
    ensures InferCategory("Gola") == Some(Transportation)
  {
    var m := Lower("Gola");
    assert m == "gola";
    assert HasPrefixAt(m, 1, "ola");
    forall w | 0 <= w < |CATEGORY_RULES[0].1| ensures !Contains(m, CATEGORY_RULES[0].1[w]) {
      var p := CATEGORY_RULES[0].1[w];
      forall i: nat | i <= |m| ensures !HasPrefixAt(m, i, p) {
        if HasPrefixAt(m, i, p) {
          PrefixHead(m, i, p);
        }
      }
    }
  }

  /** The score in tenths: a base of 5, plus 3 for an amount, 2 for a direction and 1 for a merchant, at most 10. */
  function Confidence(hasAmount: bool, hasDirection: bool, hasMerchant: bool): (c: nat)
    ensures BASE_CONFIDENCE <= c <= MAX_CONFIDENCE
    ensures hasAmount ==> c >= 8
    ensures c == MAX_CONFIDENCE <==> hasAmount && hasDirection
  {
    var sum := BASE_CONFIDENCE + (if hasAmount then 3 else 0) + (if hasDirection then 2 else 0) + (if hasMerchant then 1 else 0);
    if sum < MAX_CONFIDENCE then sum else MAX_CONFIDENCE
  }

  /** A merchant counts only when it is a non-empty string. */
  predicate MerchantTruthy(merchant: Option<string>) {
    merchant.Some? && merchant.value != []
  }

  /** `extractTransactionInfo` as a function of the message. */
  function Extracted(message: string): (p: ParsedSms)
    ensures BASE_CONFIDENCE <= p.confidence <= MAX_CONFIDENCE
  {
    var msg := Lower(message);
    var amount := AmountOf(msg);
    var direction := DirectionOf(msg);
    var merchant := MerchantOf(msg);
    ParsedSms(
      amount, direction, merchant,
      InferCategory(merchant.GetOr("")),
      AccountHintOf(msg),
      Confidence(amount.Truthy(), direction.Some?, MerchantTruthy(merchant)))
  }

  // ---------------------------------------------------------------------------
  // The steps

  /** `extractTransactionInfo`: the score is accumulated step by step and clamped at the end. */
  method ExtractTransactionInfo(message: string) returns (p: ParsedSms)
    ensures p == Extracted(message)
  {
    var msg := Lower(message);
    var confidence := BASE_CONFIDENCE;

    var amount := AmountOf(msg);
    if amount.Truthy() {
      confidence := confidence + 3;
    }

    var direction: Option<Direction> := None;
    if AnyContained(msg, DEBIT_KEYWORDS) {
      direction := Some(Debit);
      confidence := confidence + 2;
    } else if AnyContained(msg, CREDIT_KEYWORDS) {
      direction := Some(Credit);
      confidence := confidence + 2;
    }

    var merchant := MerchantOf(msg);
    if MerchantTruthy(merchant) {
      confidence := confidence + 1;
    }

    var hint := AccountHintOf(msg);
    var category := InferCategory(merchant.GetOr(""));
    var clamped := if confidence < MAX_CONFIDENCE then confidence else MAX_CONFIDENCE;
    assert direction == DirectionOf(msg);
    assert clamped == Confidence(amount.Truthy(), direction.Some?, MerchantTruthy(merchant));
    p := ParsedSms(amount, direction, merchant, category, hint, clamped);
  }

  /** The `sms_transactions` table, as far as `parseSMS` writes to it. */
  class SmsTransactionStore {
    var rows: seq<SmsTransactionRow>

    constructor()
      ensures rows == []
    {
      rows := [];
    }

    /**
      * `parseSMS`: nothing is stored unless the sender is a bank and the message
      * has a non-zero amount; otherwise exactly one unprocessed row is appended.
      */
    method ParseSms(userId: string, message: string, sender: string, timestamp: int)
      returns (stored: Option<SmsTransactionRow>)
      modifies this
      ensures stored.Some? <==> IsBankSender(sender) && Extracted(message).amount.Truthy()
      ensures stored.None? ==> rows == old(rows)
      ensures stored.Some? ==> rows == old(rows) + [stored.value]
      ensures stored.Some? ==>
        var p := Extracted(message);
        stored.value == SmsTransactionRow(userId, message, sender, timestamp, p.amount, p.direction,
          p.merchant, p.category, p.accountNumberHint, p.confidence, false, None)
      ensures stored.Some? ==> stored.value.confidenceScore >= 8 && stored.value.parsedAmount.Truthy()
    {
      if !AnyContained(Upper(sender), BANK_SENDERS) {
        return None;
      }
      var parsed := ExtractTransactionInfo(message);
      if !parsed.amount.Truthy() {
        return None;
      }
      var row := SmsTransactionRow(userId, message, sender, timestamp, parsed.amount, parsed.direction,
        parsed.merchant, parsed.category, parsed.accountNumberHint, parsed.confidence, false, None);
      rows := rows + [row];
      stored := Some(row);
    }

    /**
      * `getUnprocessedSMS`: the positions of `userId`'s rows that are not yet
      * processed, each once, newest first (`ORDER BY received_at DESC`; rows
      * received at the same instant may come in any order).
      */
    function Unprocessed(userId: string): (ids: seq<nat>)
      reads this
      ensures forall k :: 0 <= k < |ids| ==> ids[k] < |rows|
      ensures forall i: nat :: i in ids <==> i < |rows| && rows[i].userId == userId && !rows[i].isProcessed
      ensures Distinct(ids)
      ensures NewestFirst(rows, ids)
    {
      var selected := UnprocessedUpTo(rows, userId, |rows|);
      var ids := NewestFirstOrder(rows, selected);
      NewestFirstOrdered(rows, selected);
      NewestFirstOnce(rows, selected);
      assert forall i :: i in ids <==> i in multiset(selected);
      ids
    }

    /**
      * `processToTransaction`: the row is marked processed and linked to the
      * transaction; no row changes when the id is unknown.
      */
    method ProcessToTransaction(id: nat, transactionId: string) returns (updated: Option<SmsTransactionRow>)
      modifies this
      ensures updated.None? <==> id >= |old(rows)|
      ensures updated.None? ==> rows == old(rows)
      ensures updated.Some? ==>
        && updated.value == old(rows)[id].(isProcessed := true, transactionId := Some(transactionId))
        && rows == old(rows)[id := updated.value]
      ensures updated.Some? ==> id !in Unprocessed(updated.value.userId)
    {
      if id >= |rows| {
        return None;
      }
      var row := rows[id].(isProcessed := true, transactionId := Some(transactionId));
      rows := rows[id := row];
      updated := Some(row);
    }
  }

  /** No position is listed twice. */
  predicate Distinct(ids: seq<nat>) {
    forall k, l :: 0 <= k < l < |ids| ==> ids[k] != ids[l]
  }

  /** Every row listed is received no earlier than the rows listed after it. */
  predicate NewestFirst(rows: seq<SmsTransactionRow>, ids: seq<nat>)
    requires forall k :: 0 <= k < |ids| ==> ids[k] < |rows|
  {
    forall k, l :: 0 <= k < l < |ids| ==> rows[ids[k]].receivedAt >= rows[ids[l]].receivedAt
  }

  /** `id` placed into a newest-first listing, ahead of the first row received no later than it. */
  function InsertNewestFirst(rows: seq<SmsTransactionRow>, id: nat, sorted: seq<nat>): (r: seq<nat>)
    requires id < |rows| && forall k :: 0 <= k < |sorted| ==> sorted[k] < |rows|
    ensures forall k :: 0 <= k < |r| ==> r[k] < |rows|
    ensures multiset(r) == multiset(sorted) + multiset{id}
    ensures r[0] == id || r[0] == sorted[0]
  {
    if sorted == [] || rows[id].receivedAt >= rows[sorted[0]].receivedAt then [id] + sorted
    else
      assert sorted == [sorted[0]] + sorted[1..];
      [sorted[0]] + InsertNewestFirst(rows, id, sorted[1..])
  }

  /** Inserting keeps a listing newest first. */
  lemma {:induction false} InsertKeepsNewestFirst(rows: seq<SmsTransactionRow>, id: nat, sorted: seq<nat>)
    requires id < |rows| && forall k :: 0 <= k < |sorted| ==> sorted[k] < |rows|
    requires NewestFirst(rows, sorted)
    ensures NewestFirst(rows, InsertNewestFirst(rows, id, sorted))
  {
    var r := InsertNewestFirst(rows, id, sorted);
    if sorted == [] || rows[id].receivedAt >= rows[sorted[0]].receivedAt {
      assert r == [id] + sorted;
    } else {
      var rest := InsertNewestFirst(rows, id, sorted[1..]);
      InsertKeepsNewestFirst(rows, id, sorted[1..]);
      assert r == [sorted[0]] + rest;
      assert rows[sorted[0]].receivedAt >= rows[rest[0]].receivedAt;
    }
  }

  /** Inserting a position not yet listed keeps every position listed once. */
  lemma {:induction false} InsertKeepsDistinct(rows: seq<SmsTransactionRow>, id: nat, sorted: seq<nat>)
    requires id < |rows| && forall k :: 0 <= k < |sorted| ==> sorted[k] < |rows|
    requires Distinct(sorted) && id !in sorted
    ensures Distinct(InsertNewestFirst(rows, id, sorted))
  {
    var r := InsertNewestFirst(rows, id, sorted);
    if sorted == [] || rows[id].receivedAt >= rows[sorted[0]].receivedAt {
      assert r == [id] + sorted;
    } else {
      var rest := InsertNewestFirst(rows, id, sorted[1..]);
      InsertKeepsDistinct(rows, id, sorted[1..]);
      assert r == [sorted[0]] + rest;
      assert sorted[0] !in sorted[1..];
      assert multiset(rest)[sorted[0]] == 0;
    }
  }

  /** The database's `ORDER BY received_at DESC` of the selected positions, as an insertion sort. */
  function NewestFirstOrder(rows: seq<SmsTransactionRow>, ids: seq<nat>): (r: seq<nat>)
    requires forall k :: 0 <= k < |ids| ==> ids[k] < |rows|
    ensures forall k :: 0 <= k < |r| ==> r[k] < |rows|
    ensures multiset(r) == multiset(ids)
  {
    if ids == [] then []
    else
      var n := |ids| - 1;
      assert ids == ids[..n] + [ids[n]];
      InsertNewestFirst(rows, ids[n], NewestFirstOrder(rows, ids[..n]))
  }

  /** The sorted listing is newest first. */
  lemma {:induction false} NewestFirstOrdered(rows: seq<SmsTransactionRow>, ids: seq<nat>)
    requires forall k :: 0 <= k < |ids| ==> ids[k] < |rows|
    ensures NewestFirst(rows, NewestFirstOrder(rows, ids))
  {
    if ids != [] {
      var n := |ids| - 1;
      NewestFirstOrdered(rows, ids[..n]);
      InsertKeepsNewestFirst(rows, ids[n], NewestFirstOrder(rows, ids[..n]));
    }
  }

  /** Sorting a listing with no repeated position repeats none. */
  lemma {:induction false} NewestFirstOnce(rows: seq<SmsTransactionRow>, ids: seq<nat>)
    requires forall k :: 0 <= k < |ids| ==> ids[k] < |rows|
    requires Distinct(ids)
    ensures Distinct(NewestFirstOrder(rows, ids))
  {
    if ids != [] {
      var n := |ids| - 1;
      var front := NewestFirstOrder(rows, ids[..n]);
      NewestFirstOnce(rows, ids[..n]);
      assert ids[n] !in ids[..n];
      assert multiset(front)[ids[n]] == multiset(ids[..n])[ids[n]] == 0;
      InsertKeepsDistinct(rows, ids[n], front);
    }
  }

  /** The unprocessed rows of `userId` among the first `n`, in storage order: the WHERE clause of `getUnprocessedSMS`. */
  function UnprocessedUpTo(rows: seq<SmsTransactionRow>, userId: string, n: nat): (ids: seq<nat>)
    requires n <= |rows|
    ensures forall k :: 0 <= k < |ids| ==> ids[k] < n
    ensures forall i: nat :: i in ids <==> i < n && rows[i].userId == userId && !rows[i].isProcessed
    ensures forall k, l :: 0 <= k < l < |ids| ==> ids[k] < ids[l]
  {
    if n == 0 then []
    else
      var before := UnprocessedUpTo(rows, userId, n - 1);
      if rows[n - 1].userId == userId && !rows[n - 1].isProcessed then before + [n - 1] else before
  }
}
