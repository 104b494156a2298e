# FAITH core, modelled in Dafny

FAITH is a personal-finance backend: users, their transactions, monthly
budgets split into category allocations, bank accounts linked through an
account aggregator, and transactions read out of bank SMS messages. This
project models its decision logic and proves properties of it:

- **SMS extraction** (`sms_parser.dfy`, with one file per pattern: `amount_pattern.dfy`,
  `merchant_pattern.dfy`, `account_pattern.dfy`, on `text.dfy` and `scanning.dfy`).
  The sender gate, the amount, direction, merchant and account-hint patterns as
  hand-written scanners proved to return the leftmost match the JavaScript engine
  would return, the clamped confidence score in tenths, the first-match category
  table, and the store of parsed messages as a class.
- **Budget arithmetic** (`budget_calculations.dfy`) and the **category mapping**
  (`category_mapping.dfy`), as pure functions.
- **The three services** (`transaction_service.dfy`, `budget_service.dfy`,
  `account_service.dfy`, on `sql.dfy` and `js_values.dfy`). Each query is a list of
  conditions and a list of bound values. `Sql.Holds` reads placeholder `$k` as
  `values[k-1]`, so "the builder numbers its placeholders consecutively" and "the
  query selects exactly the intended rows" are both proved statements. The tables are
  maps from id to row, held in one store class per service, whose methods
  change them in place.
- **The request schemas** (`validation.dfy`, `user_validators.dfy`,
  `budget_validators.dfy`, `transaction_validators.dfy`) as predicates and parsers
  that fill in the schema defaults.
- **The user mapper** `toUser` (`user_model.dfy`).

JavaScript values are modelled by `JsValues.Value`, with truthiness, `||`, and
destructuring defaults. Amounts are `real`s, or whole hundredths in the SMS parser.
Instants are integers. Strings are `seq<char>`.

## Model

| member | source | states |
|---|---|---|
| `SmsParser.IsBankSender` | packages/backend/src/services/smsParserService.ts:27 | defines the bank-sender test: a bank code inside the upper-cased sender; its properties are the two lemmas below |
| `SmsParser.BankCodeAnywhereQualifies` | packages/backend/src/services/smsParserService.ts:27 | a sender holding any of the ten bank codes anywhere, in upper or lower case, is a bank sender |
| `SmsParser.BankSenderIgnoresCase` | packages/backend/src/services/smsParserService.ts:27 | the bank-sender test gives the same answer for a sender, its lower-cased and its upper-cased form |
| `SmsParser.DirectionOf` | packages/backend/src/services/smsParserService.ts:83-89 | defines the direction: DEBIT when a debit keyword occurs, else CREDIT when a credit keyword occurs, else none; its properties are the two lemmas below |
| `SmsParser.DebitKeywordWins` | packages/backend/src/services/smsParserService.ts:84-86 | a message containing any debit keyword is a debit, whatever credit words it also holds |
| `SmsParser.CreditKeywordWithoutDebit` | packages/backend/src/services/smsParserService.ts:87-89 | a message with a credit keyword and no debit keyword is a credit |
| `SmsParser.InferCategory` | packages/backend/src/services/smsParserService.ts:115-127 | defines the category inference over the ordered keyword groups; its properties are the lemmas below |
| `SmsParser.FirstMatchingRule` | packages/backend/src/services/smsParserService.ts:115-127 | no category exactly when no rule has a keyword inside the merchant; otherwise the category of the first rule that has one, with no earlier rule matching |
| `SmsParser.InferredCategoryIsExpenseGroup` | packages/backend/src/services/smsParserService.ts:118-124 | an inferred category is one of the seven expense groups, never an income category |
| `SmsParser.EmptyMerchantHasNoCategory` | packages/backend/src/services/smsParserService.ts:103 | an absent merchant, which becomes the empty string, gets no category |
| `SmsParser.FoodTestedBeforeTransport` | packages/backend/src/services/smsParserService.ts:118-119 | the groups are tried in order: "Uber Eats Pizza" is FOOD, not TRANSPORTATION |
| `SmsParser.KeywordsMatchInsideWords` | packages/backend/src/services/smsParserService.ts:119 | keywords are substrings, not words: "Gola" is TRANSPORTATION through "ola" |
| `SmsParser.Confidence` | packages/backend/src/services/smsParserService.ts:69-111 | the score lies in [5, 10] tenths, is at least 8 with an amount, and reaches 10 exactly with an amount and a direction |
| `SmsParser.Extracted` | packages/backend/src/services/smsParserService.ts:67-113 | the extraction of a message: its confidence always lies in [0.5, 1.0] |
| `SmsParser.ExtractTransactionInfo` | packages/backend/src/services/smsParserService.ts:67-113 | the step-by-step extraction, with its `+=` on the score and its clamp, gives the functional extraction |
| `SmsParser.SmsTransactionStore.ParseSms` | packages/backend/src/services/smsParserService.ts:23-65 | a row is stored exactly when the sender is a bank and the amount is truthy; then exactly one unprocessed row with the parsed fields and a confidence of at least 0.8 is appended, else nothing changes |
| `SmsParser.SmsTransactionStore.Unprocessed` | packages/backend/src/services/smsParserService.ts:129-137 | `getUnprocessedSMS`: the positions listed are exactly the user's rows not yet processed, each listed once, each received no earlier than the ones after it (ORDER BY received_at DESC) |
| `SmsParser.SmsTransactionStore.ProcessToTransaction` | packages/backend/src/services/smsParserService.ts:139-148 | an unknown id changes nothing; otherwise only that row changes: it is processed and linked to the transaction, and it leaves the user's unprocessed list |
| `SmsParser.UnprocessedUpTo` | packages/backend/src/services/smsParserService.ts:131-132 | the WHERE clause: among the first n rows, exactly the user's unprocessed ones, in storage order |
| `SmsParser.InsertNewestFirst` | packages/backend/src/services/smsParserService.ts:133 | inserting a position gives the listing plus that position, with it or the old first row in front |
| `SmsParser.InsertKeepsNewestFirst` | packages/backend/src/services/smsParserService.ts:133 | inserting into a newest-first listing keeps it newest first |
| `SmsParser.InsertKeepsDistinct` | packages/backend/src/services/smsParserService.ts:133 | inserting a position not yet listed keeps every position listed once |
| `SmsParser.NewestFirstOrder` | packages/backend/src/services/smsParserService.ts:133 | ORDER BY received_at DESC: the sorted listing holds the same positions as often as the selection does |
| `SmsParser.NewestFirstOrdered` | packages/backend/src/services/smsParserService.ts:133 | the sorted listing is newest first |
| `SmsParser.NewestFirstOnce` | packages/backend/src/services/smsParserService.ts:133 | a selection without repeats sorts to a listing without repeats |
| `AmountPattern.TokenEnd` | packages/backend/src/services/smsParserService.ts:72 | the greedy `[0-9,]+(?:\.[0-9]{2})?` from a run character ends at an amount token |
| `AmountPattern.TokenEndIsLongest` | packages/backend/src/services/smsParserService.ts:72 | every amount token from the same start ends no later than the greedy one |
| `AmountPattern.MarkerStartsWithLetter` | packages/backend/src/services/smsParserService.ts:72 | a currency marker starts with `r`, `i` or `₹` |
| `AmountPattern.MarkerEnd` | packages/backend/src/services/smsParserService.ts:72 | what the marker alternatives match at a position, the optional dot included |
| `AmountPattern.MarkerEndComplete` | packages/backend/src/services/smsParserService.ts:72 | every marker match at a position is the one found, or the same marker without its dot |
| `AmountPattern.MarkerFirstAttemptCorrect` | packages/backend/src/services/smsParserService.ts:72 | the marker-first attempt at a position fails exactly when no match starts there, else returns the greedy capture |
| `AmountPattern.MarkerFirstLeftmostLongest` | packages/backend/src/services/smsParserService.ts:72 | the marker-first scan returns the leftmost match, with the longest capture there |
| `AmountPattern.NumberFirstAttemptCorrect` | packages/backend/src/services/smsParserService.ts:73 | the number-first attempt at a position fails exactly when no match starts there |
| `AmountPattern.NumberFirstLeftmost` | packages/backend/src/services/smsParserService.ts:73 | the number-first scan returns the leftmost match, the only one at its position |
| `AmountPattern.AmountCapture` | packages/backend/src/services/smsParserService.ts:72-73 | the second pattern is used only when the first matches nowhere; no capture exactly when neither matches |
| `AmountPattern.StripCommas` | packages/backend/src/services/smsParserService.ts:76 | the result has no comma and is no longer than the capture |
| `AmountPattern.StripCommasOfRun` | packages/backend/src/services/smsParserService.ts:76 | a `[0-9,]` run without its commas is all digits |
| `AmountPattern.ParseAmountTextRoundTrip` | packages/backend/src/services/smsParserService.ts:76 | reading the printed form of an amount of hundredths gives the amount back |
| `AmountPattern.CaptureIsAmountText` | packages/backend/src/services/smsParserService.ts:76 | a captured token without its commas is a numeral with an optional two-digit fraction |
| `AmountPattern.AmountOf` | packages/backend/src/services/smsParserService.ts:72-77 | the amount is absent exactly when neither pattern matches |
| `AmountPattern.CommaGroupedAmount` | packages/backend/src/services/smsParserService.ts:76 | "rs.1,234.50" gives 1234.50 |
| `MerchantPattern.PrepositionEndComplete` | packages/backend/src/services/smsParserService.ts:93 | the preposition at a position is the only one that matches there |
| `MerchantPattern.LazyEndCorrect` | packages/backend/src/services/smsParserService.ts:93 | the lazy group ends at the first end where a terminator follows, and no earlier end works |
| `MerchantPattern.TryCaptureStartsCorrect` | packages/backend/src/services/smsParserService.ts:93 | backtracking into `\s+` tries capture starts from the longest run down, and fails only when none works |
| `MerchantPattern.MerchantAttemptCorrect` | packages/backend/src/services/smsParserService.ts:93 | the attempt at a position fails exactly when no match starts there, else returns the capture the engine prefers |
| `MerchantPattern.MerchantLeftmostPreferred` | packages/backend/src/services/smsParserService.ts:93 | the scan returns the leftmost match, the latest capture start there and the shortest group for it |
| `MerchantPattern.MerchantOf` | packages/backend/src/services/smsParserService.ts:93-94 | no merchant exactly when the pattern matches nowhere; a merchant has no white space at either end |
| `AccountPattern.DigitsAfterWordCorrect` | packages/backend/src/services/smsParserService.ts:99 | after a keyword, the masked four digits found are the only ones the pattern admits |
| `AccountPattern.AcInsideAccount` | packages/backend/src/services/smsParserService.ts:99 | "ac" inside "account" never leads to a match |
| `AccountPattern.AccountAttemptComplete` | packages/backend/src/services/smsParserService.ts:99 | at most one keyword alternative leads to a match at a position |
| `AccountPattern.AccountAttemptCorrect` | packages/backend/src/services/smsParserService.ts:99 | the attempt at a position fails exactly when no match starts there |
| `AccountPattern.AccountLeftmost` | packages/backend/src/services/smsParserService.ts:99 | the scan returns the leftmost match |
| `AccountPattern.AccountAtDigits` | packages/backend/src/services/smsParserService.ts:99 | a match captures four digits |
| `AccountPattern.AccountHintOf` | packages/backend/src/services/smsParserService.ts:99-100 | no hint exactly when the pattern matches nowhere; a hint is four digits |
| `Text.Lower` | packages/backend/src/services/smsParserService.ts:68 | the same length, each letter lower-cased |
| `Text.Upper` | packages/backend/src/services/smsParserService.ts:27 | the same length, each letter upper-cased |
| `Text.AnyContained` | packages/backend/src/services/smsParserService.ts:84 | true exactly when some listed keyword occurs in the string |
| `Text.Trim` | packages/backend/src/services/smsParserService.ts:94 | the slice of the input after its leading white space, with only white space after it, and no white space at either end |
| `Text.UpperOfLower` | packages/backend/src/services/smsParserService.ts:27 | upper-casing after lower-casing is upper-casing |
| `Scanning.Leftmost` | packages/backend/src/services/smsParserService.ts:72 | the first start position, left to right, at which a match attempt succeeds; none before it |
| `BudgetCalculations.OfCategory` | packages/shared/src/utils/budgetCalculations.ts:8-9 | a transaction is kept exactly when it is in the list and has the category, and the filter is no longer than the list |
| `BudgetCalculations.OfCategoryMultiset` | packages/shared/src/utils/budgetCalculations.ts:8-9 | the filter keeps each transaction of the category as often as the list holds it, and no other |
| `BudgetCalculations.Spent` | packages/shared/src/utils/budgetCalculations.ts:8-10 | defines spending as the left-to-right sum of the category's amounts from 0; its properties are the lemmas below |
| `BudgetCalculations.SpentAppend` | packages/shared/src/utils/budgetCalculations.ts:8-10 | spending splits over a concatenation of transaction lists |
| `BudgetCalculations.SpentIgnoresOtherCategories` | packages/shared/src/utils/budgetCalculations.ts:8-10 | a transaction of another category adds nothing |
| `BudgetCalculations.SpentCountsOwnCategory` | packages/shared/src/utils/budgetCalculations.ts:8-10 | a transaction of the category adds exactly its amount |
| `BudgetCalculations.SpentNonNegative` | packages/shared/src/utils/budgetCalculations.ts:8-10 | with no negative amounts, spending is not negative |
| `BudgetCalculations.AllocationStatus` | packages/shared/src/utils/budgetCalculations.ts:8-23 | category and allocation copied, spent is the category's total, remaining plus spent is the allocation, percentage times allocation is 100 times spent, over budget exactly when remaining is negative |
| `BudgetCalculations.CalculateBudgetStatus` | packages/shared/src/utils/budgetCalculations.ts:3-25 | one status per allocation, in the allocations' order, each that allocation's status |
| `BudgetCalculations.ExactSpendIsNotOver` | packages/shared/src/utils/budgetCalculations.ts:14 | spending exactly the allocation is not over budget and uses 100% |
| `BudgetCalculations.ShouldTriggerAlert` | packages/shared/src/utils/budgetCalculations.ts:27-30 | for a positive allocation the alert fires exactly when 100 times spent reaches the threshold times the allocation; for a negative one the comparison is reversed; for 0 it fires exactly when something was spent (Infinity, with NaN and -Infinity reaching no threshold) |
| `BudgetCalculations.AlertIsMonotone` | packages/shared/src/utils/budgetCalculations.ts:27-30 | spending more never withdraws an alert |
| `BudgetCalculations.OverBudgetAlerts` | packages/shared/src/utils/budgetCalculations.ts:14 | with a threshold of at most 100, an over-budget allocation has triggered its alert |
| `BudgetCalculations.AlertAtThreshold` | packages/shared/src/utils/budgetCalculations.ts:29 | the comparison is inclusive: spending exactly the threshold fires the alert |
| `CategoryMapping.TransactionCategoryNamed` | packages/shared/src/constants/categoryMappings.ts:4-29 | the category found has the name; none is found only when no category has it |
| `CategoryMapping.TransactionCategoryNameRoundTrip` | packages/shared/src/constants/categoryMappings.ts:4-29 | every category is found again from its name |
| `CategoryMapping.ToBudgetCategory` | packages/shared/src/constants/categoryMappings.ts:4-29 | ESSENTIAL exactly for the five essential categories, DISCRETIONARY exactly for the four discretionary ones, FLEXIBLE exactly for the other eight |
| `CategoryMapping.BudgetCategoryOfName` | packages/shared/src/constants/categoryMappings.ts:4-29 | a budget category exists exactly for the names of the shared categories |
| `CategoryMapping.ParserCategoriesInBudgetMap` | packages/shared/src/constants/categoryMappings.ts:4-29 | GROCERIES, HEALTHCARE, TRANSPORTATION, SHOPPING and ENTERTAINMENT from the parser have a budget category |
| `CategoryMapping.ParserCategoriesMissingFromBudgetMap` | packages/shared/src/constants/categoryMappings.ts:4-29 | FOOD and BILLS from the parser have no budget category |
| `JsValues.Or` | packages/backend/src/services/transactionService.ts:72 | `v \|\| fallback` is v when truthy, else the fallback |
| `JsValues.Default` | packages/backend/src/services/accountService.ts:22-23 | a destructuring default replaces only `undefined` |
| `JsValues.Field` | packages/backend/src/services/transactionService.ts:231 | a defined field is an entry of the object |
| `JsValues.FieldAt` | packages/backend/src/services/transactionService.ts:231 | with distinct keys, an entry's key reads back its value |
| `JsValues.PrototypeMemberText` | packages/backend/src/services/transactionService.ts:232-234 | the text an inherited `Object.prototype` member gives in a template literal; `constructor` gives its function source |
| `JsValues.LookupInherited` | packages/backend/src/services/accountService.ts:100-102 | an own entry wins; otherwise the inherited member, if any |
| `Sql.PushKeepsNumbering` | packages/backend/src/services/transactionService.ts:101-146 | pushing a condition on the next placeholder with its value keeps placeholder k bound to `values[k-1]` |
| `Sql.HoldsExtends` | packages/backend/src/services/transactionService.ts:101-146 | binding more values later does not change what a condition selects |
| `Sql.HoldsAllPush` | packages/backend/src/services/transactionService.ts:101-146 | one more condition selects the rows selected before that also meet it |
| `Sql.NumberedBounds` | packages/backend/src/services/transactionService.ts:101-146 | every placeholder of a numbered list names a bound value |
| `Sql.UpdateOf` | packages/backend/src/services/transactionService.ts:212-265 | the SET list numbered from `$1` writes exactly the given pairs; the id and owner are the last two values |
| `Sql.PushListed` | packages/backend/src/services/transactionService.ts:231-237 | appending a field with the next placeholder keeps the SET list reading its values in order |
| `Sql.ListedWrites` | packages/backend/src/services/transactionService.ts:262-265 | the id and owner pushed after the SET values are the last two placeholders, and the SET list is unchanged |
| `Sql.ApplyWritesUntouched` | packages/backend/src/services/transactionService.ts:266-275 | a column the SET list does not name keeps its value |
| `Sql.ApplyWritesOnce` | packages/backend/src/services/transactionService.ts:266-275 | a column named once gets its value |
| `Sql.ApplyWritesAgree` | packages/backend/src/services/transactionService.ts:266-275 | a column every write of which agrees ends with that value |
| `Sql.PickedWritesEmpty` | packages/backend/src/services/accountService.ts:99-109 | the SET list is empty exactly when no entry has a defined value under a whitelisted key |
| `Sql.PickedEntryWritten` | packages/backend/src/services/accountService.ts:99-105 | every defined entry under a whitelisted key is written to its column |
| `Sql.PickedWriteHasEntry` | packages/backend/src/services/accountService.ts:99-105 | every write comes from a defined entry under a whitelisted key |
| `Sql.PushPicked` | packages/backend/src/services/accountService.ts:99-105 | the loop appends, with consecutive placeholders, exactly the whitelisted writes of the request, in request order |
| `Sql.PickedAsWrittenOwnKeys` | packages/backend/src/services/accountService.ts:99-105 | when no request key names an inherited member, the loop as written writes what the whitelist writes |
| `TransactionService.DbTypeOf` | packages/backend/src/services/transactionService.ts:47 | INCOME is stored as CREDIT and every other type as DEBIT |
| `TransactionService.ApiTypeOf` | packages/backend/src/services/transactionService.ts:61-64 | CREDIT reads as INCOME, DEBIT as EXPENSE |
| `TransactionService.ApiTypeRoundTrip` | packages/backend/src/services/transactionService.ts:47 | writing an API type and reading it back gives the same type |
| `TransactionService.DirectionRoundTrip` | packages/backend/src/services/transactionService.ts:61-64 | reading a stored direction and writing it back gives the same direction |
| `TransactionService.ApiView` | packages/backend/src/services/transactionService.ts:82-85 | every column kept, `type` replaced by the API type |
| `TransactionService.NewMetadata` | packages/backend/src/services/transactionService.ts:49-53 | a metadata key exactly for each optional field given a truthy value, holding that value |
| `TransactionService.NewTransactionRow` | packages/backend/src/services/transactionService.ts:55-76 | description and merchant default to '', the source is MANUAL_ENTRY, the type is the stored direction |
| `TransactionService.CollectMetadata` | packages/backend/src/services/transactionService.ts:49-53 | the step-by-step metadata is the functional one |
| `TransactionService.FilterConditionMeaning` | packages/backend/src/services/transactionService.ts:104-146 | the condition of a present filter holds of a row exactly when the row meets that filter |
| `TransactionService.FilterStep` | packages/backend/src/services/transactionService.ts:104-146 | a present filter adds one condition and one value on the next placeholder, an absent one nothing |
| `TransactionService.FilterStart` | packages/backend/src/services/transactionService.ts:101-102 | the first condition is `user_id = $1` bound to the user |
| `TransactionService.PushFilter` | packages/backend/src/services/transactionService.ts:104-146 | one filter block keeps the numbering and the selection meaning |
| `TransactionService.BuildTransactionFilter` | packages/backend/src/services/transactionService.ts:101-146 | placeholder k refers to `values[k-1]`, one search value serves both columns, and the clause selects exactly the user's rows meeting every present filter |
| `TransactionService.MatchesFilters` | packages/backend/src/services/transactionService.ts:101-146 | defines the selection the filters mean: the user's row meeting each present filter; BuildTransactionFilter is proved against it |
| `TransactionService.TotalPages` | packages/backend/src/services/transactionService.ts:178 | defines `Math.ceil(total / limit)`; CeilDiv states it is the least covering page count |
| `TransactionService.CeilDiv` | packages/backend/src/services/transactionService.ts:178 | the least page count whose pages hold all rows |
| `TransactionService.MergeMetadata` | packages/backend/src/services/transactionService.ts:239-251 | defines the `{...existing, ...updates}` spread; MergeMetadataKeeps and SetMetadataFields state its properties |
| `TransactionService.MergeMetadataKeeps` | packages/backend/src/services/transactionService.ts:239-251 | every existing metadata key is kept; only given fields are overwritten |
| `TransactionService.DirectWritesColumns` | packages/backend/src/services/transactionService.ts:223-237 | the direct writes name only mapped columns and carry defined values |
| `TransactionService.InheritedKeyReachesSetList` | packages/backend/src/services/transactionService.ts:232-234 | as written, the key `constructor` writes a column that does not exist; the whitelist writes nothing for it |
| `TransactionService.TransactionWrites` | packages/backend/src/services/transactionService.ts:212-255 | defines the SET list in order: the type, the direct fields, the merged metadata; the direct fields are looked up on own keys only (see Left out) |
| `TransactionService.UpdatedRow` | packages/backend/src/services/transactionService.ts:266-275 | defines the row after the UPDATE; the Update* lemmas state what changes |
| `TransactionService.TransactionWritesColumns` | packages/backend/src/services/transactionService.ts:212-255 | an update writes only updatable columns, and `type` only for a truthy type |
| `TransactionService.NothingToUpdate` | packages/backend/src/services/transactionService.ts:258-260 | "No fields to update" exactly when there is no truthy type, no defined direct field and no defined metadata field |
| `TransactionService.UpdateKeepsOtherColumns` | packages/backend/src/services/transactionService.ts:205-284 | a column outside the updatable ones is unchanged |
| `TransactionService.UpdateSetsType` | packages/backend/src/services/transactionService.ts:216-220 | a truthy type is stored as its direction; otherwise the direction stays |
| `TransactionService.DirectFieldsInjective` | packages/backend/src/services/transactionService.ts:223-229 | no two request keys name the same column |
| `TransactionService.UpdateSetsDirectField` | packages/backend/src/services/transactionService.ts:231-237 | a defined direct field is what its column holds afterwards |
| `TransactionService.UpdateMergesMetadata` | packages/backend/src/services/transactionService.ts:239-255 | a metadata update stores the merged document; otherwise the metadata stays |
| `TransactionService.SetMetadataFields` | packages/backend/src/services/transactionService.ts:246-251 | the loop yields the merged metadata |
| `TransactionService.BuildTransactionUpdate` | packages/backend/src/services/transactionService.ts:205-265 | the SET list writes exactly the type, the direct writes and the merged metadata with consecutive placeholders; id and user are the last two; "No fields to update" exactly when it is empty. The direct fields are looked up on own keys only, the corrected whitelist of the first finding |
| `TransactionService.BuildSummaryFilter` | packages/backend/src/services/transactionService.ts:296-310 | consecutive placeholders from `$1`, selecting exactly the user's rows within the range |
| `TransactionService.SummarizeTotals` | packages/backend/src/services/transactionService.ts:327-343 | income and expense are their groups' totals, the count is the sum of group counts, the net balance is income less expense |
| `TransactionService.LastTotalOfGroup` | packages/backend/src/services/transactionService.ts:334-341 | with one group per type, the fold's total is that group's, or 0 |
| `TransactionService.CountSumBounds` | packages/backend/src/services/transactionService.ts:334-341 | the transaction count is at least each group's count |
| `TransactionService.CountSumNonNegative` | packages/backend/src/services/transactionService.ts:334-341 | the transaction count is not negative |
| `TransactionService.CategoryBreakdown` | packages/backend/src/services/transactionService.ts:356-365 | each share is its total over the expense in percent, or 0 without expense |
| `TransactionService.PercentagesSumToHundred` | packages/backend/src/services/transactionService.ts:356-365 | when the categories make up the whole expense, the percentages add up to 100 |
| `TransactionService.Trend` | packages/backend/src/services/transactionService.ts:383-396 | defines the trend fold over the grouped rows; TrendDistinct, TrendHasMonth, TrendTotals and TrendOrder state its properties |
| `TransactionService.SetTrend` | packages/backend/src/services/transactionService.ts:389-393 | an INCOME or EXPENSE row replaces that side of its month, keeping the month |
| `TransactionService.IndexOfMonth` | packages/backend/src/services/transactionService.ts:385 | the position of the month, or the trend's length when absent |
| `TransactionService.TrendStep` | packages/backend/src/services/transactionService.ts:384-394 | existing entries keep their months and a new month goes last |
| `TransactionService.TrendDistinct` | packages/backend/src/services/transactionService.ts:383-396 | each month appears at most once |
| `TransactionService.TrendHasMonth` | packages/backend/src/services/transactionService.ts:383-396 | a month is in the trend exactly when some row has it |
| `TransactionService.LastMonthTotalAbsent` | packages/backend/src/services/transactionService.ts:386 | a side no row sets totals 0 |
| `TransactionService.TrendTotals` | packages/backend/src/services/transactionService.ts:386-393 | a month's income and expense are its last INCOME and EXPENSE totals, or 0 |
| `TransactionService.TrendOrder` | packages/backend/src/services/transactionService.ts:396 | months come in the order of their first row |
| `TransactionService.MapValues` | packages/backend/src/services/transactionService.ts:396 | one entry per key in insertion order |
| `TransactionService.TrendMapAdd` | packages/backend/src/services/transactionService.ts:386 | setting a new key appends its entry |
| `TransactionService.TrendMapSet` | packages/backend/src/services/transactionService.ts:388-393 | setting an existing key replaces its entry in place |
| `TransactionService.TrendFoldStep` | packages/backend/src/services/transactionService.ts:384-394 | one row of the fold leaves the Map, read in insertion order, equal to the trend of the rows so far |
| `TransactionService.MonthlyTrend` | packages/backend/src/services/transactionService.ts:383-396 | the Map fold yields the functional trend |
| `TransactionService.TransactionStore.CreateTransaction` | packages/backend/src/services/transactionService.ts:33-86 | exactly one row, with its defaults, is added under the new id and returned in API terms |
| `TransactionService.TransactionStore.GetTransactionById` | packages/backend/src/services/transactionService.ts:182-203 | the user's own row in API terms, else "Transaction not found" |
| `TransactionService.TransactionStore.GetTransactions` | packages/backend/src/services/transactionService.ts:88-180 | the count is the number of rows the filters select; LIMIT and OFFSET are the next two placeholders; a negative one is refused |
| `TransactionService.TransactionStore.UpdateTransaction` | packages/backend/src/services/transactionService.ts:205-284 | only the user's row changes, by the SET list; "No fields to update" and "Transaction not found" change nothing. The corrected whitelist of the first finding is used, so an inherited key such as `constructor` is ignored |
| `TransactionService.TransactionStore.DeleteTransaction` | packages/backend/src/services/transactionService.ts:286-290 | the user's row is removed and nothing else; a missing one is an error |
| `BudgetService.NewBudgetRow` | packages/backend/src/services/budgetService.ts:23-36 | rollover is on unless the request says otherwise |
| `BudgetService.NewAllocationRow` | packages/backend/src/services/budgetService.ts:40-57 | defines the allocation INSERT's column values; NewAllocationRowDefaults states its defaults |
| `BudgetService.NewAllocationRowDefaults` | packages/backend/src/services/budgetService.ts:40-57 | a falsy threshold becomes 85 and a falsy rollover share 0; truthy ones are kept |
| `BudgetService.NewAllocationRowsAt` | packages/backend/src/services/budgetService.ts:40-57 | with distinct ids, each allocation is stored under its own id |
| `BudgetService.NewAllocationRowsKeys` | packages/backend/src/services/budgetService.ts:40-57 | only the requested ids become keys of the new allocation rows |
| `BudgetService.CreatedAllocationsStored` | packages/backend/src/services/budgetService.ts:40-57 | with fresh, distinct ids every stored allocation is kept and each requested one is stored under its own id |
| `BudgetService.InsertAllocations` | packages/backend/src/services/budgetService.ts:40-58 | the loop inserts one row per allocation in order until the database refuses one |
| `BudgetService.AllocationWrites` | packages/backend/src/services/budgetService.ts:144-158 | empty exactly when both the amount and the threshold are `undefined` |
| `BudgetService.AllocationWritesListed` | packages/backend/src/services/budgetService.ts:144-158 | the amount and the threshold, each exactly when not `undefined`, and no other column |
| `BudgetService.BuildAllocationUpdate` | packages/backend/src/services/budgetService.ts:139-177 | consecutive placeholders from `$1`, allocation and user the last two; "No fields to update" exactly when neither is given |
| `BudgetService.UpdatedAllocation` | packages/backend/src/services/budgetService.ts:168-177 | defines the allocation row after the UPDATE; UpdatedAllocationColumns states what changes |
| `BudgetService.UpdatedAllocationColumns` | packages/backend/src/services/budgetService.ts:168-177 | the given fields are written, `updated_at` stamped, every other column kept |
| `BudgetService.AlertQueryNumbered` | packages/backend/src/services/budgetService.ts:199-208 | `$2` is used exactly when a month is given |
| `BudgetService.AlertQueryMeaning` | packages/backend/src/services/budgetService.ts:199-208 | the query selects exactly the user's WARNING and EXCEEDED rows, of the month when one is given |
| `BudgetService.BuildAlertQuery` | packages/backend/src/services/budgetService.ts:188-214 | the query built by `+=`, ordered by spent percentage from highest to lowest |
| `BudgetService.BudgetStore.AllocationsOf` | packages/backend/src/services/budgetService.ts:74-91 | exactly the allocation rows of the budget |
| `BudgetService.BudgetStore.CreateBudget` | packages/backend/src/services/budgetService.ts:17-72 | for fresh, distinct database ids: the budget row and all allocation rows added on success; on any refused statement nothing is committed and the error is returned; every row stays under its own id |
| `BudgetService.BudgetStore.GetBudgetByMonth` | packages/backend/src/services/budgetService.ts:74-101 | the user's budget for the month with its allocations, else "Budget not found for this month" |
| `BudgetService.BudgetStore.UpdateBudgetAllocation` | packages/backend/src/services/budgetService.ts:139-186 | "No fields to update" first; then "Budget allocation not found" unless the allocation belongs to one of the user's budgets; only that row changes, and it stays under its own id |
| `BudgetService.BudgetStore.BudgetsFor` | packages/backend/src/services/budgetService.ts:241-249 | exactly the user's budgets for the month |
| `BudgetService.BudgetStore.DeleteBudget` | packages/backend/src/services/budgetService.ts:241-256 | the user's budgets for the month are removed, else "Budget not found" |
| `AccountService.NewAccountRow` | packages/backend/src/services/accountService.ts:15-47 | DAILY and {} defaults, the three optional identifiers as null when falsy, schema defaults kept elsewhere |
| `AccountService.LinkedAccountsNumbered` | packages/backend/src/services/accountService.ts:50-54 | the placeholders are numbered from `$1` |
| `AccountService.LinkedAccountsMeaning` | packages/backend/src/services/accountService.ts:50-54 | the clause selects the user's accounts, only active ones unless inactive ones are asked for |
| `AccountService.BuildLinkedAccountsQuery` | packages/backend/src/services/accountService.ts:49-60 | newest first, no limit, numbered, selecting exactly the listed accounts |
| `AccountService.SyncLogsNumbered` | packages/backend/src/services/accountService.ts:220-226 | `$2` is used exactly when an account is given |
| `AccountService.SyncLogsMeaning` | packages/backend/src/services/accountService.ts:220-226 | the clause selects the user's logs, of the account when one is given |
| `AccountService.BuildSyncLogsQuery` | packages/backend/src/services/accountService.ts:219-232 | newest first, at most 50, selecting exactly the listed logs |
| `AccountService.AccountWritesColumns` | packages/backend/src/services/accountService.ts:91-105 | every write names a whitelisted column and carries a defined value |
| `AccountService.AllowedFieldsInjective` | packages/backend/src/services/accountService.ts:91-97 | no two request keys name the same column |
| `AccountService.InheritedAccountKeyReachesSetList` | packages/backend/src/services/accountService.ts:100-102 | as written, the key `constructor` writes a column that does not exist; the whitelist writes nothing for it |
| `AccountService.BuildAccountUpdate` | packages/backend/src/services/accountService.ts:99-119 | the whitelisted writes with consecutive placeholders, account and user the last two; "No fields to update" exactly when there are none. The whitelist is read on own keys only, the corrected lookup of the first finding |
| `AccountService.UpdatedAccount` | packages/backend/src/services/accountService.ts:111-124 | defines the account row after the UPDATE; the two lemmas below state what changes |
| `AccountService.UpdateAccountKeepsOtherColumns` | packages/backend/src/services/accountService.ts:111-124 | a column outside the whitelist is unchanged |
| `AccountService.UpdateAccountSetsField` | packages/backend/src/services/accountService.ts:99-105 | a defined whitelisted field is what its column holds afterwards |
| `AccountService.SoftDeletedHidden` | packages/backend/src/services/accountService.ts:132-148 | a soft-deleted account leaves the default listing and stays in the full one |
| `AccountService.StartedLog` | packages/backend/src/services/accountService.ts:155-161 | a MANUAL, STARTED log of the user and account |
| `AccountService.SucceededLog` | packages/backend/src/services/accountService.ts:178-189 | SUCCESS with zero fetched and created, other columns kept |
| `AccountService.FailedLog` | packages/backend/src/services/accountService.ts:198-208 | FAILED with the error message, other columns kept |
| `AccountService.SyncedWrites` | packages/backend/src/services/accountService.ts:172-175 | the success update writes the sync time and ACTIVE |
| `AccountService.FailedWrites` | packages/backend/src/services/accountService.ts:211-213 | the failure update writes FAILED only |
| `AccountService.SyncedAccount` | packages/backend/src/services/accountService.ts:172-213 | a synced account is ACTIVE with the time stored, a failed one FAILED; nothing else changes |
| `AccountService.AccountStore.LinkAccount` | packages/backend/src/services/accountService.ts:15-47 | exactly one row, with its defaults, is added under the new id |
| `AccountService.AccountStore.GetLinkedAccounts` | packages/backend/src/services/accountService.ts:49-60 | the ids returned are exactly the user's listed accounts |
| `AccountService.AccountStore.GetAccountById` | packages/backend/src/services/accountService.ts:62-74 | the user's own account, else "Account not found" |
| `AccountService.AccountStore.UpdateAccount` | packages/backend/src/services/accountService.ts:76-130 | "No fields to update" before the lookup, then "Account not found"; otherwise only that account changes, by the whitelisted writes. The corrected whitelist of the first finding is used, so an inherited key such as `constructor` is ignored |
| `AccountService.AccountStore.DeleteAccount` | packages/backend/src/services/accountService.ts:132-148 | soft: inactive and DISABLED, no row removed |
| `AccountService.AccountStore.SyncAccount` | packages/backend/src/services/accountService.ts:150-217 | success: account ACTIVE, log SUCCESS; a refused account or log update inside the try block: log and account FAILED and the error returned; a missing account: nothing changes |
| `Validation.Get` | packages/shared/src/validators/user.validators.ts:3-21 | an absent field reads as `undefined` |
| `UserValidators.PhonePattern` | packages/shared/src/validators/user.validators.ts:7 | defines `^\+?[1-9]\d{1,14}$`; PhonePatternIsE164 states what it admits |
| `UserValidators.PhoneBody` | packages/shared/src/validators/user.validators.ts:7 | the phone without its optional leading `+` |
| `UserValidators.DigitCountAll` | packages/shared/src/validators/user.validators.ts:8-9 | a string of digits has as many digits as characters |
| `UserValidators.DigitCountPlus` | packages/shared/src/validators/user.validators.ts:8-9 | a leading `+` adds no digit |
| `UserValidators.PhonePatternIsE164` | packages/shared/src/validators/user.validators.ts:7 | a phone of the pattern has 2 to 15 digits, the first not 0, and at most a leading `+` besides |
| `UserValidators.PhoneBoundsCountPlus` | packages/shared/src/validators/user.validators.ts:8-9 | as written, a 15-digit number with `+` is refused and a 9-digit one with `+` passes |
| `UserValidators.PhoneStrictMeaning` | packages/shared/src/validators/user.validators.ts:5-9 | the digit-count check accepts exactly the pattern's numbers of 10 to 15 digits; without `+` it agrees with the check as written |
| `UserValidators.PasswordPattern` | packages/shared/src/validators/user.validators.ts:18 | defines the password pattern with its four look-aheads; the lemmas below state what it admits |
| `UserValidators.PasswordHasAllKinds` | packages/shared/src/validators/user.validators.ts:18 | an accepted password has a lower-case letter, an upper-case letter, a digit and one of `@$!%*?&` |
| `UserValidators.PasswordPatternIgnoresSuffix` | packages/shared/src/validators/user.validators.ts:18 | anything may follow a password that matches |
| `UserValidators.AheadOnSingleLine` | packages/shared/src/validators/user.validators.ts:18 | without a line break, each look-ahead is plain containment |
| `UserValidators.PasswordLineBreak` | packages/shared/src/validators/user.validators.ts:18 | a required character after a line break is not seen |
| `UserValidators.UserCreateStrictAsWritten` | packages/shared/src/validators/user.validators.ts:3-21 | defines the strict create schema as written; UserCreateStrictAccepted states what it guarantees |
| `UserValidators.UserCreateStrictAccepted` | packages/shared/src/validators/user.validators.ts:3-21 | the schema as written: an accepted phone matches the pattern and has 10-15 characters, so 10-15 digits without a `+` and 9-14 with one; a 2-100 character name; a password of 8 or more with all four classes |
| `UserValidators.UserCreateStrict` | packages/shared/src/validators/user.validators.ts:8-9 | defines the corrected strict schema, whose phone bounds count digits as the messages say |
| `UserValidators.UserCreateStrictIntended` | packages/shared/src/validators/user.validators.ts:8-9 | the corrected schema: an accepted phone has 10-15 digits, with or without a `+`; the other fields as written |
| `UserValidators.StrictCreateAgreesWithoutPlus` | packages/shared/src/validators/user.validators.ts:8-9 | the corrected and the as-written schemas accept the same requests when the phone has no `+` |
| `UserValidators.UserUpdateStrict` | packages/shared/src/validators/user.validators.ts:23-27 | defines the strict update schema; the lemmas below state its properties |
| `UserValidators.UserUpdateStrictMeaning` | packages/shared/src/validators/user.validators.ts:23-27 | accepted exactly when each field present meets its check (name 2-100 characters, the phone pattern, a KYC status of the four); a present phone has 2-15 digits |
| `UserValidators.StrictCreateIsUpdate` | packages/shared/src/validators/user.validators.ts:23-27 | a request the strict create schema accepts, without a KYC status, is an accepted update |
| `UserValidators.StrictUpdateDropsField` | packages/shared/src/validators/user.validators.ts:23-27 | leaving any field out of an accepted update keeps it accepted |
| `UserValidators.UserCreate` | packages/shared/src/validators/user.ts:3-8 | defines the exported create schema; the lemmas below state its relation to the strict one |
| `UserValidators.StrictCreateIsLax` | packages/shared/src/validators/user.ts:3-8 | whatever the strict schema as written accepts, the exported one accepts |
| `UserValidators.LaxCreateAcceptsMore` | packages/shared/src/validators/user.ts:3-8 | the exported schema accepts a 2-digit phone, a 101-character name and an all-lowercase password |
| `UserValidators.PreferencesUpdate` | packages/shared/src/validators/user.ts:14-18 | defines the preferences object of an update |
| `UserValidators.PreferencesUpdateMeaning` | packages/shared/src/validators/user.ts:14-18 | accepted exactly when each field present is a string and a present theme is light, dark or auto |
| `UserValidators.UserUpdate` | packages/shared/src/validators/user.ts:10-19 | defines the exported update schema; the lemmas below state its properties |
| `UserValidators.UserUpdateMeaning` | packages/shared/src/validators/user.ts:10-19 | accepted exactly when each field present meets its check (name of 2 or more, email, the phone pattern, valid preferences); a present phone has 2-15 digits |
| `UserValidators.CreateIsUpdate` | packages/shared/src/validators/user.ts:10-19 | a request the exported create schema accepts, without preferences, is an accepted update |
| `UserValidators.UpdateDropsField` | packages/shared/src/validators/user.ts:10-19 | leaving any field out of an accepted update keeps it accepted |
| `UserValidators.UpdatesAreOptional` | packages/shared/src/validators/user.ts:10-19 | an empty update passes both update schemas; an unknown theme or KYC status does not |
| `BudgetValidators.BudgetCategoryNamed` | packages/shared/src/validators/budget.ts:5 | the category found has the name; none when no category has it |
| `BudgetValidators.ParseAllocation` | packages/shared/src/validators/budget.ts:4-9 | defines the allocation schema with its defaults; AllocationAccepted states what it guarantees |
| `BudgetValidators.AllocationAccepted` | packages/shared/src/validators/budget.ts:4-9 | a positive amount, both percentages in [0, 100], absent ones 0 and 85 |
| `BudgetValidators.ParseAllocations` | packages/shared/src/validators/budget.ts:15 | accepted exactly when every element is, one result per element |
| `BudgetValidators.MonthNotRangeChecked` | packages/shared/src/validators/budget.ts:13 | "2024-13" passes; "2024-1" does not |
| `BudgetValidators.ToBudgetAllocations` | packages/shared/src/validators/budget.ts:4-9 | one allocation per validated one, nothing spent |
| `BudgetValidators.ParseBudgetCreate` | packages/shared/src/validators/budget.ts:11-17 | defines the budget schema; BudgetCreateAccepted and OneBadAllocationRejects state its properties |
| `BudgetValidators.BudgetCreateAccepted` | packages/shared/src/validators/budget.ts:11-17 | a positive total, one allocation or more, all positive, rollover on unless turned off |
| `BudgetValidators.OneBadAllocationRejects` | packages/shared/src/validators/budget.ts:15 | one invalid allocation rejects the budget |
| `TransactionValidators.ParseTransactionCreate` | packages/shared/src/validators/transaction.validators.ts:4-17 | defines the create schema with its default; the two lemmas below state its properties |
| `TransactionValidators.TransactionCreateAccepted` | packages/shared/src/validators/transaction.validators.ts:4-17 | a positive amount, description 1-500, notes up to 1000, merchant and location up to 200, a listed frequency, `isRecurring` false when absent |
| `TransactionValidators.TransactionCreateRefuses` | packages/shared/src/validators/transaction.validators.ts:7-8 | a zero amount or an empty description is refused |
| `TransactionValidators.TransactionUpdate` | packages/shared/src/validators/transaction.validators.ts:19-32 | defines the update schema; TransactionUpdateOptional states it is the create schema made partial |
| `TransactionValidators.TransactionUpdateOptional` | packages/shared/src/validators/transaction.validators.ts:19-32 | an empty update passes, a given amount must be positive, and every accepted create is a valid update |
| `TransactionValidators.ParseTransactionFilters` | packages/shared/src/validators/transaction.validators.ts:34-46 | defines the filter schema with its defaults; the lemmas below state its properties |
| `TransactionValidators.TransactionFiltersAccepted` | packages/shared/src/validators/transaction.validators.ts:34-46 | page at least 1, limit in 1..100, positive amounts, defaults 1 and 20 |
| `TransactionValidators.AmountBoundsIndependent` | packages/shared/src/validators/transaction.validators.ts:40-41 | a minimum above the maximum passes |
| `TransactionValidators.FiltersGivePaging` | packages/shared/src/validators/transaction.validators.ts:44-45 | validated filters give a non-negative LIMIT and OFFSET |
| `TransactionValidators.ParseSharedTransaction` | packages/shared/src/validators/transaction.ts:4-15 | defines the exported transaction schema; the two lemmas below state its properties |
| `TransactionValidators.SharedTransactionAccepted` | packages/shared/src/validators/transaction.ts:4-15 | a positive amount, INR when absent, DEBIT or CREDIT, a listed source, description up to 500, a category the budget mapping knows |
| `TransactionValidators.SharedMerchantUnbounded` | packages/shared/src/validators/transaction.ts:9-10 | a 501-character merchant passes; a 501-character description does not |
| `UserModel.ToUser` | packages/backend/src/models/User.ts:32-71 | defines `toUser`; the lemmas below state what it copies, hides and defaults |
| `UserModel.PreferencesRowFor` | packages/backend/src/models/User.ts:14-29 | the row keeps the given id, owner and timestamps |
| `UserModel.ToUserCopiesRow` | packages/backend/src/models/User.ts:33-40 | id, email, phone, name and timestamps copied; kycStatus is `kyc_status` unchecked |
| `UserModel.ToUserHidesPasswordHash` | packages/backend/src/models/User.ts:32-70 | the password hash has no effect on the user |
| `UserModel.ToUserWithPreferences` | packages/backend/src/models/User.ts:41-55 | with a row, each preference and flag comes from its column |
| `UserModel.ToUserDefaults` | packages/backend/src/models/User.ts:56-69 | without a row: INR, en, auto, every flag on except investment updates |
| `UserModel.PreferencesRoundTrip` | packages/backend/src/models/User.ts:41-69 | stored preferences read back unchanged; the default row reads like no row |
| `UserModel.PreferencesRowRoundTrip` | packages/backend/src/models/User.ts:41-55 | reading a row's preferences and storing them again gives the row |

## Left out

- Database I/O: SQL text, JSON serialisation, `RETURNING`, the `budget_spending_summary` view and `json_agg` joins are not modelled. Queries are condition and value lists over maps of rows. Only the account store takes the schema's column defaults, as the `defaults` parameter of `AccountService.NewAccountRow` and `LinkAccount`. The other row builders (`TransactionService.NewTransactionRow`, `BudgetService.NewBudgetRow`, `BudgetService.NewAllocationRow`) hold only the columns their INSERT names, so defaulted columns such as `spent_amount`, `created_at` and `updated_at` are absent from those rows.
- Row order and paging contents: ORDER BY, LIMIT and OFFSET are recorded in the query values but the rows of a page are not computed. `getUnprocessedSMS` is the exception: its newest-first order is computed. The same holds for the 12-month cap of the trend query and the 50-row cap of `getSyncLogs`.
- BudgetService.BudgetStore.GetBudgetByMonth: returns the ids of the budget's allocation rows. The source's LEFT JOIN with `json_agg` has no `FILTER (WHERE ba.id IS NOT NULL)`, so a budget without allocations comes back with `allocations` holding one object whose fields are all null. The model gives the empty set there.
- AccountService.AccountStore.SyncAccount: models a refusal of the account update or of the SUCCESS-log update inside the try block only. A refused STARTED-log INSERT, which runs before the try block, leaves no log and the account unchanged and returns its error; that case is not modelled. A refused statement inside the catch block replaces the original error, and if it is the FAILED-log update the account is never marked FAILED; that case is not modelled either.
- The clock: `new Date()`, `CURRENT_TIMESTAMP` and `duration_ms` are parameters or left out; one sync uses one instant.
- Floating point: amounts are `real`, so NaN, Infinity, rounding and `parseFloat` of database strings are not modelled. In the SMS parser an amount is whole hundredths; NaN is the value `NotANumber`.
- GROUP BY aggregation is given: the summary functions take the grouped rows as input.
- `getAllBudgets`, `getBudgetSpending`, `getBudgetSummary` and `getAccountSummary` are left out. Each is a single fixed query with no branching.
- Cascade deletion of allocations when a budget is deleted is the database's job and is not modelled.
- Case mapping is ASCII only. Non-ASCII case pairs of `toLowerCase`/`toUpperCase` are not modelled.
- BudgetCalculations.AllocationStatus: requires a positive allocated amount. Creation validates that, but `updateBudgetAllocation` stores the amount unvalidated. So 0 (percentage Infinity or NaN) or a negative amount can reach the source's function, and reals have no Infinity or NaN. `ShouldTriggerAlert` covers every amount.
- BudgetCalculations.CalculateBudgetStatus: requires positive allocated amounts, for the reason given for `AllocationStatus`.
- Validation.StringBetween: a string is a sequence of Unicode scalar values, while Zod's `.min`/`.max` count UTF-16 code units. A character outside the Basic Multilingual Plane, such as an emoji, counts as one here and as two in JavaScript, so lengths agree only for strings inside that plane. The same holds for every length and position in the SMS scanners.
- TransactionService.TransactionWrites: looks the direct fields up on own keys only, the corrected whitelist of the first finding. As written, an own key `constructor` in the body reaches the SET list (`Sql.PickedWritesAsWritten`, `TransactionService.InheritedKeyReachesSetList`) and the database refuses the UPDATE. That refusal is not modelled.
- TransactionService.BuildTransactionUpdate: built on `TransactionWrites`, so it has the corrected whitelist and not the as-written refusal.
- TransactionService.TransactionStore.UpdateTransaction: answers a body whose only key is `constructor` with "No fields to update", where the source as written sends an UPDATE the database refuses.
- AccountService.BuildAccountUpdate: reads the whitelist on own keys only, the corrected lookup of the first finding. The as-written lookup is `Sql.PickedWritesAsWritten`, shown by `AccountService.InheritedAccountKeyReachesSetList`.
- AccountService.AccountStore.UpdateAccount: answers a body whose only key is `constructor` with "No fields to update", where the source as written sends an UPDATE the database refuses.
- UserValidators.UserCreateStrict: the corrected schema of the second finding, counting the phone's digits. The schema as written is `UserValidators.UserCreateStrictAsWritten`, described by `UserCreateStrictAccepted`.
- Zod error messages and issue lists are not modelled: a schema either accepts or refuses.
- Email and UUID checks, `z.coerce.date` and `z.coerce.number` are the parameter `Validation.Library`.
- Authentication, the Express controllers and routes, the mobile app, migrations and locale formatting are not part of this model.

## Findings

| source | as written | input that shows it | evidently intended | confidence | as-written member | corrected member |
|---|---|---|---|---|---|---|
| packages/backend/src/services/accountService.ts:100-102 | `allowedFields[key]` also holds for keys inherited from `Object.prototype`. The request body reaches it unvalidated, so `{constructor: true}` adds `function Object() { [native code] } = $1` to the SET list, and the database refuses the UPDATE. The same test appears at transactionService.ts:232-234. | `updateAccount(u, a, {constructor: true})` | only the whitelisted own keys are used, and such a body gets "No fields to update" | not executed | `Sql.PickedWritesAsWritten` | `Sql.PickedWrites` |
| packages/shared/src/validators/user.validators.ts:8-9 | `.min(10)` and `.max(15)` count characters, including a leading `+`, while the messages speak of digits | "+123456789012345" (15 digits) is refused; "+123456789" (9 digits) passes | 10 to 15 digits, whatever the `+` | not executed | `UserValidators.PhoneStrictAsWritten` | `UserValidators.PhoneStrict` |
