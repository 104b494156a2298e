/**
  * The transaction schemas: the backend's create, update and filter schemas
  * over the API's enums, and the create schema the shared package exports
  * over the stored enums.
  */
module TransactionValidators {
  import opened Wrappers
  import opened JsValues
  import opened Validation
  import TransactionModel
  import CategoryMapping
  import TransactionService

  // ---------------------------------------------------------------------------
  // The backend schemas

  /** `z.nativeEnum(TransactionType)`: INCOME or EXPENSE. */
  predicate IsApiTypeName(v: Value) {
    v.Str? && exists t: TransactionModel.ApiType :: t.Name() == v.s
  }

  /** `z.nativeEnum(TransactionCategory)` over the twenty API categories. */
  predicate IsCategoryName(v: Value) {
    v.Str? && exists c: TransactionModel.Category :: c.Name() == v.s
  }

  /** `z.nativeEnum(PaymentMode)`. */
  predicate IsPaymentModeName(v: Value) {
    v.Str? && exists m: TransactionModel.PaymentMode :: m.Name() == v.s
  }

  const RECURRING_FREQUENCIES: set<string> := {"DAILY", "WEEKLY", "MONTHLY", "YEARLY"}

  /** A created transaction after validation: the checked fields, the date converted, `isRecurring` filled in. */
  datatype TransactionCreateOut = TransactionCreateOut(
    apiType: string,
    category: string,
    amount: real,
    description: string,
    paymentMode: string,
    date: int,
    isRecurring: bool,
    recurringFrequency: Value,
    tags: Value,
    notes: Value,
    merchant: Value,
    location: Value)

  /**
    * `TransactionCreateSchema`: the enums, a positive amount, a description of
    * 1 to 500 characters, a date, `isRecurring` defaulting to false, and the
    * optional frequency, tags, notes (up to 1000), merchant and location (up to 200).
    */
  function ParseTransactionCreate(lib: Library, input: map<string, Value>): Option<TransactionCreateOut> {
    var apiType, category, amount := Get(input, "type"), Get(input, "category"), Get(input, "amount");
    var description, mode := Get(input, "description"), Get(input, "paymentMode");
    var date := lib.coerceDate(Get(input, "date"));
    var recurring := Default(Get(input, "isRecurring"), Bool(false));
    var frequency, tags, notes := Get(input, "recurringFrequency"), Get(input, "tags"), Get(input, "notes");
    var merchant, location := Get(input, "merchant"), Get(input, "location");
    if && IsApiTypeName(apiType)
       && IsCategoryName(category)
       && Positive(amount)
       && StringBetween(description, 1, Some(500))
       && IsPaymentModeName(mode)
       && date.Some?
       && recurring.Bool?
       && Optional(frequency, OneOfNames(frequency, RECURRING_FREQUENCIES))
       && Optional(tags, StringArray(tags))
       && Optional(notes, StringBetween(notes, 0, Some(1000)))
       && Optional(merchant, StringBetween(merchant, 0, Some(200)))
       && Optional(location, StringBetween(location, 0, Some(200)))
    then Some(TransactionCreateOut(apiType.s, category.s, amount.r, description.s, mode.s, date.value, recurring.b,
                                   frequency, tags, notes, merchant, location))
    else None
  }

  /** What an accepted create request guarantees. */
  lemma TransactionCreateAccepted(lib: Library, input: map<string, Value>)
    requires ParseTransactionCreate(lib, input).Some?
    ensures var t := ParseTransactionCreate(lib, input).value;
      && t.amount > 0.0
      && 1 <= |t.description| <= 500
      && (t.notes.Str? ==> |t.notes.s| <= 1000)
      && (t.merchant.Str? ==> |t.merchant.s| <= 200)
      && (t.location.Str? ==> |t.location.s| <= 200)
      && (t.recurringFrequency != Undefined ==> t.recurringFrequency.Str? && t.recurringFrequency.s in RECURRING_FREQUENCIES)
      && (Get(input, "isRecurring") == Undefined ==> !t.isRecurring)
      && (Get(input, "isRecurring") != Undefined ==> Get(input, "isRecurring") == Bool(t.isRecurring))
  {
  }

  /** A zero amount or an empty description is refused. */
  lemma TransactionCreateRefuses(lib: Library, input: map<string, Value>)
    requires Get(input, "amount") == Num(0.0) || Get(input, "description") == Str("")
    ensures ParseTransactionCreate(lib, input).None?
  {
  }

  /** `TransactionUpdateSchema`: the create schema's checks, every field optional, no defaults. */
  predicate TransactionUpdate(lib: Library, input: map<string, Value>) {
    var apiType, category, amount := Get(input, "type"), Get(input, "category"), Get(input, "amount");
    var description, mode, date := Get(input, "description"), Get(input, "paymentMode"), Get(input, "date");
    var recurring, frequency := Get(input, "isRecurring"), Get(input, "recurringFrequency");
    var tags, notes := Get(input, "tags"), Get(input, "notes");
    var merchant, location := Get(input, "merchant"), Get(input, "location");
    && Optional(apiType, IsApiTypeName(apiType))
    && Optional(category, IsCategoryName(category))
    && Optional(amount, Positive(amount))
    && Optional(description, StringBetween(description, 1, Some(500)))
    && Optional(mode, IsPaymentModeName(mode))
    && Optional(date, lib.coerceDate(date).Some?)
    && Optional(recurring, recurring.Bool?)
    && Optional(frequency, OneOfNames(frequency, RECURRING_FREQUENCIES))
    && Optional(tags, StringArray(tags))
    && Optional(notes, StringBetween(notes, 0, Some(1000)))
    && Optional(merchant, StringBetween(merchant, 0, Some(200)))
    && Optional(location, StringBetween(location, 0, Some(200)))
  }

  /** An empty update is valid, and a given amount must still be positive; every accepted create is also a valid update. */
  lemma TransactionUpdateOptional(lib: Library, input: map<string, Value>)
    ensures TransactionUpdate(lib, map[])
    ensures TransactionUpdate(lib, input) && Get(input, "amount") != Undefined ==> Positive(Get(input, "amount"))
    ensures ParseTransactionCreate(lib, input).Some? ==> TransactionUpdate(lib, input)
  {
  }

  /** The filters after validation; an absent optional filter is `None` or `Undefined`. */
  datatype TransactionFiltersOut = TransactionFiltersOut(
    apiType: Value,
    category: Value,
    paymentMode: Value,
    startDate: Option<int>,
    endDate: Option<int>,
    minAmount: Option<real>,
    maxAmount: Option<real>,
    search: Value,
    tags: Value,
    page: int,
    limit: int)

  /** `z.coerce.number().positive().optional()`: absent, or a positive number after `Number(v)`. */
  function OptionalPositive(lib: Library, v: Value): Option<Option<real>> {
    if v == Undefined then Some(None)
    else
      var n := lib.coerceNumber(v);
      if n.Some? && n.value > 0.0 then Some(Some(n.value)) else None
  }

  /** `z.coerce.date().optional()`. */
  function OptionalDate(lib: Library, v: Value): Option<Option<int>> {
    if v == Undefined then Some(None)
    else
      var d := lib.coerceDate(v);
      if d.Some? then Some(Some(d.value)) else None
  }

  /** `z.coerce.number().int().positive()` with `.max(max)` when given, after the default for an absent field. */
  function PositiveInteger(lib: Library, v: Value, default: int, max: Option<int>): Option<int> {
    var n := lib.coerceNumber(Default(v, Num(default as real)));
    if n.Some? && IsInteger(n.value) && n.value > 0.0 && (max.None? || n.value <= max.value as real)
    then Some(n.value.Floor)
    else None
  }

  /**
    * `TransactionFiltersSchema`: each filter optional, the amounts positive
    * each on its own, `page` a positive integer defaulting to 1 and `limit` one
    * of at most 100 defaulting to 20.
    */
  function ParseTransactionFilters(lib: Library, input: map<string, Value>): Option<TransactionFiltersOut> {
    var apiType, category, mode := Get(input, "type"), Get(input, "category"), Get(input, "paymentMode");
    var start, end := OptionalDate(lib, Get(input, "startDate")), OptionalDate(lib, Get(input, "endDate"));
    var min, max := OptionalPositive(lib, Get(input, "minAmount")), OptionalPositive(lib, Get(input, "maxAmount"));
    var search, tags := Get(input, "search"), Get(input, "tags");
    var page := PositiveInteger(lib, Get(input, "page"), 1, None);
    var limit := PositiveInteger(lib, Get(input, "limit"), 20, Some(100));
    if && Optional(apiType, IsApiTypeName(apiType))
       && Optional(category, IsCategoryName(category))
       && Optional(mode, IsPaymentModeName(mode))
       && start.Some? && end.Some? && min.Some? && max.Some?
       && Optional(search, search.Str?)
       && Optional(tags, StringArray(tags))
       && page.Some? && limit.Some?
    then Some(TransactionFiltersOut(apiType, category, mode, start.value, end.value, min.value, max.value,
                                    search, tags, page.value, limit.value))
    else None
  }

  /**
    * Accepted filters have a page of at least 1 and a limit between 1 and 100,
    * and an absent page or limit becomes 1 or 20 when `Number` keeps those
    * numbers as they are.
    */
  lemma TransactionFiltersAccepted(lib: Library, input: map<string, Value>)
    requires ParseTransactionFilters(lib, input).Some?
    ensures var f := ParseTransactionFilters(lib, input).value;
      && f.page >= 1 && 1 <= f.limit <= 100
      && (f.minAmount.Some? ==> f.minAmount.value > 0.0)
      && (f.maxAmount.Some? ==> f.maxAmount.value > 0.0)
      && (Get(input, "page") == Undefined && lib.coerceNumber(Num(1.0)) == Some(1.0) ==> f.page == 1)
      && (Get(input, "limit") == Undefined && lib.coerceNumber(Num(20.0)) == Some(20.0) ==> f.limit == 20)
  {
  }

  /** The two amount bounds are checked separately: a minimum above the maximum passes. */
  lemma AmountBoundsIndependent(lib: Library)
    requires lib.coerceNumber(Num(5.0)) == Some(5.0) && lib.coerceNumber(Num(1.0)) == Some(1.0)
    requires lib.coerceNumber(Num(20.0)) == Some(20.0)
    ensures var f := ParseTransactionFilters(lib, map["minAmount" := Num(5.0), "maxAmount" := Num(1.0)]);
      f.Some? && f.value.minAmount == Some(5.0) && f.value.maxAmount == Some(1.0)
  {
    var input := map["minAmount" := Num(5.0), "maxAmount" := Num(1.0)];
    assert IsInteger(1.0) && IsInteger(20.0);
    assert PositiveInteger(lib, Get(input, "page"), 1, None) == Some(1);
    assert PositiveInteger(lib, Get(input, "limit"), 20, Some(100)) == Some(20);
  }

  /**
    * Validated filters never reach the database's refusal of a negative LIMIT
    * or OFFSET: with `page >= 1` and `limit >= 1` both are non-negative.
    */
  lemma FiltersGivePaging(lib: Library, input: map<string, Value>)
    requires ParseTransactionFilters(lib, input).Some?
    ensures var f := ParseTransactionFilters(lib, input).value;
      f.limit >= 0 && (f.page - 1) * f.limit >= 0
  {
    TransactionFiltersAccepted(lib, input);
  }

  // ---------------------------------------------------------------------------
  // The create schema of the shared package

  /** `z.nativeEnum(TransactionSource)`. */
  const TRANSACTION_SOURCES: set<string> := {"ACCOUNT_AGGREGATOR", "SMS_PARSED", "MANUAL_ENTRY", "BANK_SYNC"}

  /** `z.nativeEnum(TransactionType)` of the shared package: DEBIT or CREDIT. */
  predicate IsDirectionName(v: Value) {
    v.Str? && exists d: TransactionModel.Direction :: d.Name() == v.s
  }

  /** `z.nativeEnum(TransactionCategory)` of the shared package. */
  predicate IsSharedCategoryName(v: Value) {
    v.Str? && CategoryMapping.TransactionCategoryNamed(v.s).Some?
  }

  datatype SharedTransactionOut = SharedTransactionOut(
    userId: string,
    amount: real,
    currency: string,
    category: string,
    merchant: Value,
    description: Value,
    direction: string,
    source: string,
    timestamp: Value,
    metadata: Value)

  /**
    * `TransactionCreateSchema` as the shared package exports it: a UUID user
    * id, a positive amount, the currency defaulting to INR, a category, an
    * optional merchant of any length, an optional description up to 500, a
    * direction, a source, and an optional date and metadata record.
    */
  function ParseSharedTransaction(lib: Library, input: map<string, Value>): Option<SharedTransactionOut> {
    var userId, amount := Get(input, "userId"), Get(input, "amount");
    var currency := Default(Get(input, "currency"), Str("INR"));
    var category, merchant, description := Get(input, "category"), Get(input, "merchant"), Get(input, "description");
    var direction, source := Get(input, "type"), Get(input, "source");
    var timestamp, metadata := Get(input, "timestamp"), Get(input, "metadata");
    if && Uuid(lib, userId)
       && Positive(amount)
       && currency.Str?
       && IsSharedCategoryName(category)
       && Optional(merchant, merchant.Str?)
       && Optional(description, StringBetween(description, 0, Some(500)))
       && IsDirectionName(direction)
       && OneOfNames(source, TRANSACTION_SOURCES)
       && Optional(timestamp, timestamp.Date?)
       && Optional(metadata, metadata.Obj?)
    then Some(SharedTransactionOut(userId.s, amount.r, currency.s, category.s, merchant, description,
                                   direction.s, source.s, timestamp, metadata))
    else None
  }

  /** What an accepted shared create request guarantees. */
  lemma SharedTransactionAccepted(lib: Library, input: map<string, Value>)
    requires ParseSharedTransaction(lib, input).Some?
    ensures var t := ParseSharedTransaction(lib, input).value;
      && t.amount > 0.0
      && (Get(input, "currency") == Undefined ==> t.currency == "INR")
      && (Get(input, "currency") != Undefined ==> Get(input, "currency") == Str(t.currency))
      && (t.direction == "DEBIT" || t.direction == "CREDIT")
      && t.source in TRANSACTION_SOURCES
      && (t.description.Str? ==> |t.description.s| <= 500)
      && CategoryMapping.BudgetCategoryOfName(t.category).Some?
  {
    var t := ParseSharedTransaction(lib, input).value;
    var d: TransactionModel.Direction :| d.Name() == t.direction;
  }

  /** A merchant of any length passes the shared schema; a 501-character description does not. */
  lemma SharedMerchantUnbounded(lib: Library, input: map<string, Value>, text: string)
    requires ParseSharedTransaction(lib, input).Some? && |text| == 501
    ensures ParseSharedTransaction(lib, input["merchant" := Str(text)]).Some?
    ensures ParseSharedTransaction(lib, input["description" := Str(text)]).None?
  {
    assert Get(input["merchant" := Str(text)], "merchant") == Str(text);
    assert Get(input["description" := Str(text)], "description") == Str(text);
  }
}
