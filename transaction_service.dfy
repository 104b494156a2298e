/**
  * The transaction service: creating, listing, updating and summarising a
  * user's transactions in the `transactions` table.
  *
  * The API speaks of INCOME and EXPENSE, the table of CREDIT and DEBIT.  Every
  * statement binds its values to numbered placeholders, and every condition
  * or assignment names the placeholder of its own value.
  */
module TransactionService {
  import opened Wrappers
  import opened JsValues
  import opened Sql
  import opened TransactionModel

  // ---------------------------------------------------------------------------
  // INCOME/EXPENSE and CREDIT/DEBIT

  /** `t === 'INCOME' ? 'CREDIT' : 'DEBIT'`. */
  function DbTypeOf(t: Value): (d: Direction)
    ensures d == Credit <==> t == Str("INCOME")
  {
    if t == Str("INCOME") then Credit else Debit
  }

  /** `CASE WHEN type = 'CREDIT' THEN 'INCOME' WHEN type = 'DEBIT' THEN 'EXPENSE' END`. */
  function ApiTypeOf(dbType: Value): (t: Value)
    ensures t == Str(Income.Name()) <==> dbType == Str(Credit.Name())
    ensures t == Str(Expense.Name()) <==> dbType == Str(Debit.Name())
    ensures t == Null <==> dbType != Str(Credit.Name()) && dbType != Str(Debit.Name())
  {
    if dbType == Str("CREDIT") then Str("INCOME")
    else if dbType == Str("DEBIT") then Str("EXPENSE")
    else Null
  }

  /** Writing an API type and reading it back gives the same type. */
  lemma ApiTypeRoundTrip(t: ApiType)
    ensures ApiTypeOf(Str(DbTypeOf(Str(t.Name())).Name())) == Str(t.Name())
  {
  }

  /** Reading a stored direction and writing it back gives the same direction. */
  lemma DirectionRoundTrip(d: Direction)
    ensures DbTypeOf(ApiTypeOf(Str(d.Name()))) == d
  {
  }

  /** A row as the API returns it: `{ ...row, type: row.api_type }`. */
  function ApiView(row: Row): (r: Row)
    ensures Col(r, "type") == ApiTypeOf(Col(row, "type"))
    ensures forall c :: c != "type" && c != "api_type" ==> Col(r, c) == Col(row, c)
  {
    var api := ApiTypeOf(Col(row, "type"));
    row["api_type" := api]["type" := api]
  }

  /** The API view changes only `type` and `api_type`: the metadata it shows is the row's. */
  lemma ApiViewKeepsMetadata(row: Row)
    ensures Col(ApiView(row), "metadata") == Col(row, "metadata")
  {
  }

  // ---------------------------------------------------------------------------
  // createTransaction

  /** The request body of `createTransaction`. */
  datatype TransactionInput = TransactionInput(
    apiType: string,
    category: string,
    amount: real,
    description: Option<string>,
    paymentMode: Option<string>,
    date: Option<int>,
    merchant: Option<string>,
    notes: Option<string>,
    tags: Option<seq<string>>,
    location: Option<string>)

  function TagsValue(tags: seq<string>): Value {
    Arr(seq(|tags|, i requires 0 <= i < |tags| => Str(tags[i])))
  }

  /** The metadata a new transaction is stored with: exactly the optional fields that were given a truthy value. */
  function NewMetadata(data: TransactionInput): (m: map<string, Value>)
    ensures "paymentMode" in m <==> Truthy(OfString(data.paymentMode))
    ensures "notes" in m <==> Truthy(OfString(data.notes))
    ensures "tags" in m <==> data.tags.Some?
    ensures "location" in m <==> Truthy(OfString(data.location))
    ensures forall k :: k in m ==> k in {"paymentMode", "notes", "tags", "location"}
    ensures "paymentMode" in m ==> m["paymentMode"] == OfString(data.paymentMode)
    ensures "notes" in m ==> m["notes"] == OfString(data.notes)
    ensures "tags" in m ==> m["tags"] == TagsValue(data.tags.value)
    ensures "location" in m ==> m["location"] == OfString(data.location)
  {
    var m0: map<string, Value> := map[];
    var m1 := if Truthy(OfString(data.paymentMode)) then m0["paymentMode" := OfString(data.paymentMode)] else m0;
    var m2 := if Truthy(OfString(data.notes)) then m1["notes" := OfString(data.notes)] else m1;
    var m3 := if data.tags.Some? then m2["tags" := TagsValue(data.tags.value)] else m2;
    if Truthy(OfString(data.location)) then m3["location" := OfString(data.location)] else m3
  }

  /** The row `createTransaction` inserts; `now` stands for `new Date()`. */
  function NewTransactionRow(id: string, userId: string, data: TransactionInput, now: int): (row: Row)
    ensures Col(row, "id") == Str(id) && Col(row, "user_id") == Str(userId)
    ensures Col(row, "type") == Str(DbTypeOf(Str(data.apiType)).Name())
    ensures Col(row, "category") == Str(data.category) && Col(row, "amount") == Num(data.amount)
    ensures Col(row, "description") == (if Truthy(OfString(data.description)) then Str(data.description.value) else Str(""))
    ensures Col(row, "merchant") == (if Truthy(OfString(data.merchant)) then Str(data.merchant.value) else Str(""))
    ensures Col(row, "source") == Str("MANUAL_ENTRY")
    ensures Col(row, "timestamp") == Date(if data.date.Some? then data.date.value else now)
    ensures Col(row, "metadata") == Obj(NewMetadata(data))
  {
    map[
      "id" := Str(id),
      "user_id" := Str(userId),
      "type" := Str(DbTypeOf(Str(data.apiType)).Name()),
      "category" := Str(data.category),
      "amount" := Num(data.amount),
      "description" := Or(OfString(data.description), Str("")),
      "merchant" := Or(OfString(data.merchant), Str("")),
      "source" := Str("MANUAL_ENTRY"),
      "timestamp" := Date(data.date.GetOr(now)),
      "metadata" := Obj(NewMetadata(data))
    ]
  }

  /** The `if (…) metadata.… = …` block of `createTransaction`. */
  method CollectMetadata(data: TransactionInput) returns (metadata: map<string, Value>)
    ensures metadata == NewMetadata(data)
  {
    metadata := map[];
    if Truthy(OfString(data.paymentMode)) {
      metadata := metadata["paymentMode" := OfString(data.paymentMode)];
    }
    if Truthy(OfString(data.notes)) {
      metadata := metadata["notes" := OfString(data.notes)];
    }
    if data.tags.Some? {
      metadata := metadata["tags" := TagsValue(data.tags.value)];
    }
    if Truthy(OfString(data.location)) {
      metadata := metadata["location" := OfString(data.location)];
    }
  }

  // ---------------------------------------------------------------------------
  // getTransactions: the WHERE clause

  /** The query-string filters of `getTransactions`; `page` and `limit` are already defaulted to 1 and 20. */
  datatype TransactionFilters = TransactionFilters(
    apiType: Option<string>,
    category: Option<string>,
    startDate: Option<string>,
    endDate: Option<string>,
    minAmount: Option<real>,
    maxAmount: Option<real>,
    search: Option<string>,
    page: int,
    limit: int)

  /** `%search%`: the search text anywhere in the column. */
  function SearchPattern(search: string): string {
    "%" + search + "%"
  }

  /**
    * The k-th restriction of the filter: the row's owner first, then type,
    * category, date range, amount range and search; an absent filter
    * restricts nothing.
    */
  predicate FilterClause(engine: Engine, row: Row, userId: string, f: TransactionFilters, k: nat) {
    if k == 0 then Col(row, "user_id") == Str(userId)
    else if k == 1 then Truthy(OfString(f.apiType)) ==> Col(row, "type") == Str(DbTypeOf(Str(f.apiType.value)).Name())
    else if k == 2 then Truthy(OfString(f.category)) ==> Col(row, "category") == Str(f.category.value)
    else if k == 3 then Truthy(OfString(f.startDate)) ==> engine.atLeast(Col(row, "timestamp"), Str(f.startDate.value))
    else if k == 4 then Truthy(OfString(f.endDate)) ==> engine.atLeast(Str(f.endDate.value), Col(row, "timestamp"))
    else if k == 5 then f.minAmount.Some? ==> engine.atLeast(Col(row, "amount"), Num(f.minAmount.value))
    else if k == 6 then f.maxAmount.Some? ==> engine.atLeast(Num(f.maxAmount.value), Col(row, "amount"))
    else if k == 7 then
      Truthy(OfString(f.search)) ==>
        || engine.ilike(Col(row, "description"), Str(SearchPattern(f.search.value)))
        || engine.ilike(Col(row, "merchant"), Str(SearchPattern(f.search.value)))
    else true
  }

  /** The first `n` restrictions of the filter. */
  predicate MatchesFirst(engine: Engine, row: Row, userId: string, f: TransactionFilters, n: nat) {
    forall k: nat :: k < n ==> FilterClause(engine, row, userId, f, k)
  }

  /** A row is listed when it belongs to the user and passes every filter that is present. */
  predicate MatchesFilters(engine: Engine, row: Row, userId: string, f: TransactionFilters) {
    MatchesFirst(engine, row, userId, f, 8)
  }

  /** Whether the k-th filter is present, and so pushes a condition. */
  predicate FilterPresent(f: TransactionFilters, k: nat) {
    if k == 1 then Truthy(OfString(f.apiType))
    else if k == 2 then Truthy(OfString(f.category))
    else if k == 3 then Truthy(OfString(f.startDate))
    else if k == 4 then Truthy(OfString(f.endDate))
    else if k == 5 then f.minAmount.Some?
    else if k == 6 then f.maxAmount.Some?
    else if k == 7 then Truthy(OfString(f.search))
    else false
  }

  /** The condition the k-th present filter pushes, for placeholder `p`. */
  function FilterCondition(k: nat, p: nat): Condition {
    if k == 1 then Compare("type", Equal, p)
    else if k == 2 then Compare("category", Equal, p)
    else if k == 3 then Compare("timestamp", AtLeast, p)
    else if k == 4 then Compare("timestamp", AtMost, p)
    else if k == 5 then Compare("amount", AtLeast, p)
    else if k == 6 then Compare("amount", AtMost, p)
    else EitherLike("description", "merchant", p)
  }

  /** The value the k-th present filter binds. */
  function FilterValue(f: TransactionFilters, k: nat): Value
    requires FilterPresent(f, k)
  {
    if k == 1 then Str(DbTypeOf(Str(f.apiType.value)).Name())
    else if k == 2 then Str(f.category.value)
    else if k == 3 then Str(f.startDate.value)
    else if k == 4 then Str(f.endDate.value)
    else if k == 5 then Num(f.minAmount.value)
    else if k == 6 then Num(f.maxAmount.value)
    else Str(SearchPattern(f.search.value))
  }

  /** The state of the builder after the first `k` restrictions: consecutively numbered and selecting exactly their rows. */
  ghost predicate BuiltUpTo(userId: string, f: TransactionFilters, k: nat, conditions: seq<Condition>, values: seq<Value>) {
    && Numbered(Params(conditions), values)
    && |conditions| == |values| >= 1
    && conditions[0] == Compare("user_id", Equal, 1) && values[0] == Str(userId)
    && forall engine, row :: HoldsAll(engine, row, conditions, values) <==> MatchesFirst(engine, row, userId, f, k)
  }

  lemma FilterConditionMeaning(userId: string, f: TransactionFilters, k: nat, values: seq<Value>)
    requires 1 <= k <= 7 && FilterPresent(f, k)
    ensures forall engine, row ::
      Holds(engine, row, FilterCondition(k, |values| + 1), values + [FilterValue(f, k)]) <==> FilterClause(engine, row, userId, f, k)
  {
    assert (values + [FilterValue(f, k)])[|values|] == FilterValue(f, k);
  }

  /** One filter step: a present filter pushes its condition with the next placeholder, an absent one nothing. */
  lemma {:induction false} FilterStep(userId: string, f: TransactionFilters, k: nat, conditions: seq<Condition>, values: seq<Value>)
    requires 1 <= k <= 7 && BuiltUpTo(userId, f, k, conditions, values)
    ensures FilterPresent(f, k) ==>
      BuiltUpTo(userId, f, k + 1, conditions + [FilterCondition(k, |values| + 1)], values + [FilterValue(f, k)])
    ensures !FilterPresent(f, k) ==> BuiltUpTo(userId, f, k + 1, conditions, values)
  {
    if FilterPresent(f, k) {
      var c := FilterCondition(k, |values| + 1);
      var v := FilterValue(f, k);
      PushKeepsNumbering(conditions, values, c, v);
      NumberedBounds(conditions, values);
      FilterConditionMeaning(userId, f, k, values);
      forall engine, row
        ensures HoldsAll(engine, row, conditions + [c], values + [v]) <==> MatchesFirst(engine, row, userId, f, k + 1)
      {
        HoldsAllPush(engine, row, conditions, values, c, v);
        assert MatchesFirst(engine, row, userId, f, k + 1) <==>
          MatchesFirst(engine, row, userId, f, k) && FilterClause(engine, row, userId, f, k);
      }
    } else {
      forall engine, row
        ensures MatchesFirst(engine, row, userId, f, k + 1) <==> MatchesFirst(engine, row, userId, f, k)
      {
        assert FilterClause(engine, row, userId, f, k);
      }
    }
  }

  lemma FilterStart(userId: string, f: TransactionFilters)
    ensures BuiltUpTo(userId, f, 1, [Compare("user_id", Equal, 1)], [Str(userId)])
  {
    var conditions := [Compare("user_id", Equal, 1)];
    var values := [Str(userId)];
    assert Params(conditions) == [1] by { ParamsAppend([], conditions[0]); }
    forall engine, row
      ensures HoldsAll(engine, row, conditions, values) <==> MatchesFirst(engine, row, userId, f, 1)
    {
      assert HoldsAll(engine, row, conditions, values) <==> Holds(engine, row, conditions[0], values);
      assert MatchesFirst(engine, row, userId, f, 1) <==> FilterClause(engine, row, userId, f, 0);
    }
  }

  /**
    * One block of the builder: when the k-th filter is present, the placeholder
    * count goes up by one and its condition and value are pushed.
    */
  method PushFilter(userId: string, f: TransactionFilters, k: nat, conditions: seq<Condition>, values: seq<Value>)
    returns (conditions': seq<Condition>, values': seq<Value>)
    requires 1 <= k <= 7 && BuiltUpTo(userId, f, k, conditions, values)
    ensures BuiltUpTo(userId, f, k + 1, conditions', values')
    ensures FilterPresent(f, k) ==>
      && conditions' == conditions + [FilterCondition(k, |values| + 1)]
      && values' == values + [FilterValue(f, k)]
    ensures !FilterPresent(f, k) ==> conditions' == conditions && values' == values
  {
    FilterStep(userId, f, k, conditions, values);
    conditions', values' := conditions, values;
    if FilterPresent(f, k) {
      var paramCount := |values| + 1;
      conditions' := conditions + [FilterCondition(k, paramCount)];
      values' := values + [FilterValue(f, k)];
    }
  }

  /**
    * The WHERE clause of `getTransactions`: the user's condition is `$1`, each
    * present filter (type, category, start and end date, minimum and maximum
    * amount, search) adds one condition and one value with the next
    * placeholder, and the rows it selects are exactly the rows that match the
    * filters.
    */
  method BuildTransactionFilter(userId: string, f: TransactionFilters)
    returns (conditions: seq<Condition>, values: seq<Value>)
    ensures Numbered(Params(conditions), values)
    ensures |conditions| == |values| >= 1
    ensures conditions[0] == Compare("user_id", Equal, 1) && values[0] == Str(userId)
    ensures forall engine, row :: HoldsAll(engine, row, conditions, values) <==> MatchesFilters(engine, row, userId, f)
  {
    conditions := [Compare("user_id", Equal, 1)];
    values := [Str(userId)];
    FilterStart(userId, f);
    conditions, values := PushFilter(userId, f, 1, conditions, values);
    conditions, values := PushFilter(userId, f, 2, conditions, values);
    conditions, values := PushFilter(userId, f, 3, conditions, values);
    conditions, values := PushFilter(userId, f, 4, conditions, values);
    conditions, values := PushFilter(userId, f, 5, conditions, values);
    conditions, values := PushFilter(userId, f, 6, conditions, values);
    conditions, values := PushFilter(userId, f, 7, conditions, values);
  }

  // ---------------------------------------------------------------------------
  // getTransactions: pagination

  /** `Math.ceil(total / limit)` for a positive limit. */
  function CeilDiv(total: nat, limit: nat): (pages: nat)
    requires limit > 0
    ensures total == 0 ==> pages == 0
    ensures total > 0 ==> limit * (pages - 1) < total <= limit * pages
  {
    (total + limit - 1) / limit
  }

  /** `totalPages`; with a limit of 0 it is not a finite number. */
  function TotalPages(total: nat, limit: int): Option<nat> {
    if limit > 0 then Some(CeilDiv(total, limit)) else None
  }

  /** What `getTransactions` reports, with the statement it ran for the page. */
  datatype TransactionPage = TransactionPage(
    total: nat,
    page: int,
    totalPages: Option<nat>,
    conditions: seq<Condition>,
    values: seq<Value>,
    limitParam: nat,
    offsetParam: nat)

  // ---------------------------------------------------------------------------
  // updateTransaction: the SET list

  /** `directFields`: the request keys written straight to a column, `date` to `timestamp`. */
  const DIRECT_FIELDS: map<string, string> :=
    map["category" := "category", "amount" := "amount", "description" := "description",
        "merchant" := "merchant", "date" := "timestamp"]

  /** The request keys kept in the metadata document, in the order they are merged. */
  const METADATA_FIELDS: seq<string> := ["paymentMode", "notes", "tags", "location"]

  /** The columns an update may write. */
  const UPDATABLE_COLUMNS: set<string> :=
    {"type", "category", "amount", "description", "merchant", "timestamp", "metadata"}

  /** The `type` assignment, when the request gives a truthy type. */
  function TypeWrites(data: Entries): seq<(string, Value)> {
    if Truthy(Field(data, "type")) then [("type", Str(DbTypeOf(Field(data, "type")).Name()))] else []
  }

  /** Some metadata field is defined in the request. */
  predicate HasMetadataUpdate(data: Entries) {
    exists i :: 0 <= i < |METADATA_FIELDS| && Field(data, METADATA_FIELDS[i]) != Undefined
  }

  /** The current metadata with the first `n` metadata fields of the request laid over it. */
  function MergeMetadata(current: map<string, Value>, data: Entries, n: nat): map<string, Value>
    requires n <= |METADATA_FIELDS|
  {
    if n == 0 then current
    else
      var merged := MergeMetadata(current, data, n - 1);
      var value := Field(data, METADATA_FIELDS[n - 1]);
      if value != Undefined then merged[METADATA_FIELDS[n - 1] := value] else merged
  }

  /** The metadata after an update: every existing key is kept, and only the given fields are overwritten. */
  lemma {:induction false} MergeMetadataKeeps(current: map<string, Value>, data: Entries, n: nat)
    requires n <= |METADATA_FIELDS|
    ensures forall k :: k in MergeMetadata(current, data, n) <==>
      k in current || exists i :: 0 <= i < n && METADATA_FIELDS[i] == k && Field(data, k) != Undefined
    ensures forall i :: 0 <= i < n && Field(data, METADATA_FIELDS[i]) != Undefined ==>
      MergeMetadata(current, data, n)[METADATA_FIELDS[i]] == Field(data, METADATA_FIELDS[i])
    ensures forall k :: k in current && (forall i :: 0 <= i < n ==> METADATA_FIELDS[i] != k || Field(data, k) == Undefined) ==>
      MergeMetadata(current, data, n)[k] == current[k]
  {
    if n > 0 {
      MergeMetadataKeeps(current, data, n - 1);
    }
  }

  /** The metadata document an update writes: `{ ...(existing || {}) }` with the given fields set. */
  function MetadataWrites(data: Entries, existing: Value): seq<(string, Value)> {
    if HasMetadataUpdate(data) then [("metadata", Obj(MergeMetadata(Spread(Or(existing, Obj(map[]))), data, |METADATA_FIELDS|)))]
    else []
  }

  /** The SET list of `updateTransaction`: type first, then the direct fields, then the metadata. */
  function TransactionWrites(data: Entries, existingMetadata: Value): seq<(string, Value)> {
    TypeWrites(data) + PickedWrites(DIRECT_FIELDS, data) + MetadataWrites(data, existingMetadata)
  }

  lemma {:induction false} DirectWritesColumns(data: Entries)
    ensures forall i :: 0 <= i < |PickedWrites(DIRECT_FIELDS, data)| ==>
      var w := PickedWrites(DIRECT_FIELDS, data)[i];
      w.0 in UPDATABLE_COLUMNS && w.0 != "type" && w.0 != "metadata" && w.1 != Undefined
  {
    if data != [] {
      DirectWritesColumns(data[..|data| - 1]);
      var key := data[|data| - 1].0;
      if key in DIRECT_FIELDS {
        assert key in {"category", "amount", "description", "merchant", "date"};
      }
    }
  }

  /**
    * The source tests `directFields[key]`, which the request key `constructor`
    * passes through the member every object inherits: the SET list then names
    * a column that does not exist and the database rejects the update, where
    * the whitelist ignores the key and answers "No fields to update".
    */
  lemma InheritedKeyReachesSetList()
    ensures var data := [("constructor", Num(1.0))];
      && PickedWritesAsWritten(DIRECT_FIELDS, data) == [("function Object() { [native code] }", Num(1.0))]
      && "function Object() { [native code] }" !in UPDATABLE_COLUMNS
      && TransactionWrites(data, Null) == []
  {
    var data := [("constructor", Num(1.0))];
    assert data[..0] == [];
    assert !HasMetadataUpdate(data) by {
      forall i | 0 <= i < |METADATA_FIELDS| ensures Field(data, METADATA_FIELDS[i]) == Undefined {
        assert data[1..] == [];
      }
    }
  }

  /** An update writes only the updatable columns, and `type` only for a truthy type. */
  lemma TransactionWritesColumns(data: Entries, existingMetadata: Value)
    ensures forall i :: 0 <= i < |TransactionWrites(data, existingMetadata)| ==>
      TransactionWrites(data, existingMetadata)[i].0 in UPDATABLE_COLUMNS
    ensures (exists i :: 0 <= i < |TransactionWrites(data, existingMetadata)| && TransactionWrites(data, existingMetadata)[i].0 == "type")
      <==> Truthy(Field(data, "type"))
    ensures (exists i :: 0 <= i < |TransactionWrites(data, existingMetadata)| && TransactionWrites(data, existingMetadata)[i].0 == "metadata")
      <==> HasMetadataUpdate(data)
  {
    var t, d, m := TypeWrites(data), PickedWrites(DIRECT_FIELDS, data), MetadataWrites(data, existingMetadata);
    var w := TransactionWrites(data, existingMetadata);
    DirectWritesColumns(data);
    forall i | 0 <= i < |w| ensures w[i].0 in UPDATABLE_COLUMNS && (w[i].0 == "type" ==> i < |t|) && (w[i].0 == "metadata" ==> i >= |t| + |d|) {
      if i < |t| {
      } else if i < |t| + |d| {
        assert w[i] == d[i - |t|];
      } else {
        assert w[i] == m[i - |t| - |d|];
      }
    }
    if Truthy(Field(data, "type")) {
      assert w[0].0 == "type";
    }
    if HasMetadataUpdate(data) {
      assert w[|t| + |d|].0 == "metadata";
    }
  }

  /** "No fields to update" is raised exactly when the request has no truthy type, no defined direct field and no defined metadata field. */
  lemma NothingToUpdate(data: Entries, existingMetadata: Value)
    ensures TransactionWrites(data, existingMetadata) == [] <==>
      && !Truthy(Field(data, "type"))
      && (forall i :: 0 <= i < |data| ==> data[i].1 == Undefined || data[i].0 !in DIRECT_FIELDS)
      && !HasMetadataUpdate(data)
  {
    PickedWritesEmpty(DIRECT_FIELDS, data);
  }

  /** The row after `updateTransaction` with request `data`, the SET list read against the row's own metadata. */
  function UpdatedRow(row: Row, data: Entries): Row {
    ApplyWrites(row, TransactionWrites(data, Col(row, "metadata")))
  }

  /** An update never touches a column outside the updatable ones: id, owner, source and the rest stay. */
  lemma UpdateKeepsOtherColumns(row: Row, data: Entries, column: string)
    requires column !in UPDATABLE_COLUMNS
    ensures Col(UpdatedRow(row, data), column) == Col(row, column)
  {
    var w := TransactionWrites(data, Col(row, "metadata"));
    TransactionWritesColumns(data, Col(row, "metadata"));
    ApplyWritesUntouched(row, w, column);
  }

  /** Updating one row of a table keyed by id keeps it keyed by id: the id column is not updatable. */
  lemma UpdateKeepsKeys(table: map<string, Row>, id: string, data: Entries)
    requires KeyedById(table) && id in table
    ensures KeyedById(table[id := UpdatedRow(table[id], data)])
  {
    UpdateKeepsOtherColumns(table[id], data, "id");
    KeyedByIdPut(table, id, UpdatedRow(table[id], data));
  }

  /** A truthy `type` is stored as its direction; otherwise the stored direction stays. */
  lemma UpdateSetsType(row: Row, data: Entries)
    ensures Truthy(Field(data, "type")) ==> Col(UpdatedRow(row, data), "type") == Str(DbTypeOf(Field(data, "type")).Name())
    ensures !Truthy(Field(data, "type")) ==> Col(UpdatedRow(row, data), "type") == Col(row, "type")
  {
    var w := TransactionWrites(data, Col(row, "metadata"));
    TransactionWritesColumns(data, Col(row, "metadata"));
    if Truthy(Field(data, "type")) {
      var v := Str(DbTypeOf(Field(data, "type")).Name());
      assert w[0] == ("type", v);
      DirectWritesColumns(data);
      forall i | 0 <= i < |w| && w[i].0 == "type" ensures w[i].1 == v {
        assert i == 0;
      }
      ApplyWritesAgree(row, w, "type", v);
    } else {
      ApplyWritesUntouched(row, w, "type");
    }
  }

  /** No two request keys name the same column. */
  lemma DirectFieldsInjective(a: string, b: string)
    requires a in DIRECT_FIELDS && b in DIRECT_FIELDS && DIRECT_FIELDS[a] == DIRECT_FIELDS[b]
    ensures a == b
  {
    assert a in {"category", "amount", "description", "merchant", "date"};
    assert b in {"category", "amount", "description", "merchant", "date"};
  }

  /** With distinct request keys, every assignment to a direct field's column carries that entry's value. */
  lemma DirectColumnWrittenOnce(data: Entries, i: nat)
    requires DistinctKeys(data) && i < |data| && data[i].0 in DIRECT_FIELDS
    ensures var d := PickedWrites(DIRECT_FIELDS, data);
      forall j :: 0 <= j < |d| && d[j].0 == DIRECT_FIELDS[data[i].0] ==> d[j].1 == data[i].1
  {
    var d := PickedWrites(DIRECT_FIELDS, data);
    forall j | 0 <= j < |d| && d[j].0 == DIRECT_FIELDS[data[i].0] ensures d[j].1 == data[i].1 {
      PickedWriteHasEntry(DIRECT_FIELDS, data, d[j]);
      var k :| 0 <= k < |data| && data[k].1 == d[j].1 && data[k].0 in DIRECT_FIELDS && DIRECT_FIELDS[data[k].0] == d[j].0;
      DirectFieldsInjective(data[k].0, data[i].0);
    }
  }

  /** A request entry with a defined value under a direct key is what its column holds afterwards. */
  lemma UpdateSetsDirectField(row: Row, data: Entries, i: nat)
    requires DistinctKeys(data) && i < |data|
    requires data[i].1 != Undefined && data[i].0 in DIRECT_FIELDS
    ensures Col(UpdatedRow(row, data), DIRECT_FIELDS[data[i].0]) == data[i].1
  {
    var column, v := DIRECT_FIELDS[data[i].0], data[i].1;
    var t, d, m := TypeWrites(data), PickedWrites(DIRECT_FIELDS, data), MetadataWrites(data, Col(row, "metadata"));
    assert TransactionWrites(data, Col(row, "metadata")) == (t + d) + m;
    ApplyWritesConcat(row, t + d, m);
    ApplyWritesConcat(row, t, d);
    PickedEntryWritten(DIRECT_FIELDS, data, i);
    DirectColumnWrittenOnce(data, i);
    ApplyWritesAgree(ApplyWrites(row, t), d, column, v);
    DirectWritesColumns(data);
    var k :| 0 <= k < |d| && d[k] == (column, v);
    assert column != "metadata";
    ApplyWritesUntouched(ApplyWrites(ApplyWrites(row, t), d), m, column);
  }

  /** A metadata update stores the merged document; without one the metadata stays. */
  lemma UpdateMergesMetadata(row: Row, data: Entries)
    ensures HasMetadataUpdate(data) ==>
      Col(UpdatedRow(row, data), "metadata") ==
        Obj(MergeMetadata(Spread(Or(Col(row, "metadata"), Obj(map[]))), data, |METADATA_FIELDS|))
    ensures !HasMetadataUpdate(data) ==> Col(UpdatedRow(row, data), "metadata") == Col(row, "metadata")
  {
    var t, d, m := TypeWrites(data), PickedWrites(DIRECT_FIELDS, data), MetadataWrites(data, Col(row, "metadata"));
    var w := TransactionWrites(data, Col(row, "metadata"));
    DirectWritesColumns(data);
    forall j | 0 <= j < |t| + |d| ensures w[j].0 != "metadata" {
      if j >= |t| {
        assert w[j] == d[j - |t|];
      }
    }
    if HasMetadataUpdate(data) {
      var v := m[0].1;
      assert w[|t| + |d|] == m[0];
      ApplyWritesAgree(row, w, "metadata", v);
    } else {
      assert w == t + d;
      ApplyWritesUntouched(row, w, "metadata");
    }
  }

  /** `metadataFields.forEach(...)`: each defined metadata field of the request is set on the copy. */
  method SetMetadataFields(current: map<string, Value>, data: Entries) returns (merged: map<string, Value>)
    ensures merged == MergeMetadata(current, data, |METADATA_FIELDS|)
  {
    merged := current;
    for j := 0 to |METADATA_FIELDS|
      invariant merged == MergeMetadata(current, data, j)
    {
      var value := Field(data, METADATA_FIELDS[j]);
      if value != Undefined {
        merged := merged[METADATA_FIELDS[j] := value];
      }
    }
  }

  /** `if (data.type) { … }`: the type is the first entry of the SET list when it is truthy. */
  method PushType(data: Entries) returns (fields: seq<Assignment>, values: seq<Value>, ghost writes: seq<(string, Value)>)
    ensures Listed(fields, values, writes) && writes == TypeWrites(data)
  {
    fields, values, writes := [], [], [];
    var paramCount := 0;
    var dataType := Field(data, "type");
    if Truthy(dataType) {
      var dbType := DbTypeOf(dataType);
      paramCount := paramCount + 1;
      PushListed(fields, values, writes, "type", Str(dbType.Name()));
      fields := fields + [Assignment("type", paramCount)];
      values := values + [Str(dbType.Name())];
      writes := writes + [("type", Str(dbType.Name()))];
    }
  }

  /** `if (hasMetadataUpdate) { … }`: the merged metadata goes last, with the next placeholder. */
  method PushMetadata(data: Entries, existingMetadata: Value,
                      fields0: seq<Assignment>, values0: seq<Value>, ghost writes0: seq<(string, Value)>)
    returns (fields: seq<Assignment>, values: seq<Value>, ghost writes: seq<(string, Value)>)
    requires Listed(fields0, values0, writes0)
    ensures Listed(fields, values, writes) && writes == writes0 + MetadataWrites(data, existingMetadata)
  {
    fields, values, writes := fields0, values0, writes0;
    var paramCount := |fields|;
    if HasMetadataUpdate(data) {
      var currentMetadata := Or(existingMetadata, Obj(map[]));
      var newMetadata := SetMetadataFields(Spread(currentMetadata), data);
      paramCount := paramCount + 1;
      PushListed(fields, values, writes, "metadata", Obj(newMetadata));
      fields := fields + [Assignment("metadata", paramCount)];
      values := values + [Obj(newMetadata)];
      writes := writes + [("metadata", Obj(newMetadata))];
    }
  }

  /**
    * The SET list of `updateTransaction` with its placeholders: the type, each
    * defined direct field in request order, and the merged metadata, numbered
    * from `$1`; the transaction id and the user id are the last two.
    */
  method BuildTransactionUpdate(userId: string, transactionId: string, data: Entries, existingMetadata: Value)
    returns (r: Result<Update>)
    ensures r.Err? <==> TransactionWrites(data, existingMetadata) == []
    ensures r.Err? ==> r.message == "No fields to update"
    ensures r.Ok? ==>
      && r.value.WellNumbered()
      && r.value.Writes() == TransactionWrites(data, existingMetadata)
      && r.value.IdValue() == Str(transactionId)
      && r.value.OwnerValue() == Str(userId)
  {
    var fields: seq<Assignment>, values: seq<Value>, writes := PushType(data);
    fields, values, writes := PushPicked(DIRECT_FIELDS, data, fields, values, writes);
    fields, values, writes := PushMetadata(data, existingMetadata, fields, values, writes);
    var paramCount := |fields|;
    assert writes == TransactionWrites(data, existingMetadata);

    if |fields| == 0 {
      return Err("No fields to update");
    }

    ListedWrites(fields, values, writes, Str(transactionId), Str(userId));
    paramCount := paramCount + 1;
    values := values + [Str(transactionId)];
    paramCount := paramCount + 1;
    values := values + [Str(userId)];
    r := Ok(Update(fields, values, paramCount - 1, paramCount));
  }

  // ---------------------------------------------------------------------------
  // getTransactionSummary

  /** The filters the summary queries share: the user, and the optional date range. */
  function SummaryFilters(startDate: Option<string>, endDate: Option<string>): TransactionFilters {
    TransactionFilters(None, None, startDate, endDate, None, None, None, 1, 20)
  }

  /**
    * The `dateFilter` of `getTransactionSummary`: `user_id = $1`, then the
    * start and the end of the range when given, each with the next
    * placeholder.  It selects exactly the user's rows within the range.
    */
  method BuildSummaryFilter(userId: string, startDate: Option<string>, endDate: Option<string>)
    returns (conditions: seq<Condition>, values: seq<Value>)
    ensures Numbered(Params(conditions), values)
    ensures |conditions| == |values| >= 1
    ensures conditions[0] == Compare("user_id", Equal, 1) && values[0] == Str(userId)
    ensures forall engine, row :: HoldsAll(engine, row, conditions, values) <==>
      && Col(row, "user_id") == Str(userId)
      && (Truthy(OfString(startDate)) ==> engine.atLeast(Col(row, "timestamp"), Str(startDate.value)))
      && (Truthy(OfString(endDate)) ==> engine.atLeast(Str(endDate.value), Col(row, "timestamp")))
  {
    var f := SummaryFilters(startDate, endDate);
    conditions := [Compare("user_id", Equal, 1)];
    values := [Str(userId)];
    FilterStart(userId, f);
    FilterStep(userId, f, 1, conditions, values);
    FilterStep(userId, f, 2, conditions, values);
    conditions, values := PushFilter(userId, f, 3, conditions, values);
    conditions, values := PushFilter(userId, f, 4, conditions, values);
    FilterStep(userId, f, 5, conditions, values);
    FilterStep(userId, f, 6, conditions, values);
    FilterStep(userId, f, 7, conditions, values);
    forall engine, row
      ensures MatchesFirst(engine, row, userId, f, 8) <==>
        FilterClause(engine, row, userId, f, 0) && FilterClause(engine, row, userId, f, 3) && FilterClause(engine, row, userId, f, 4)
    {
      assert FilterClause(engine, row, userId, f, 1) && FilterClause(engine, row, userId, f, 2);
      assert FilterClause(engine, row, userId, f, 5) && FilterClause(engine, row, userId, f, 6);
      assert FilterClause(engine, row, userId, f, 7);
    }
  }

  /** One row of the totals query: an API type (NULL for an unknown direction), its sum and its count. */
  datatype TotalsRow = TotalsRow(apiType: Value, total: real, count: int)

  datatype Totals = Totals(totalIncome: real, totalExpense: real, netBalance: real, transactionCount: int)

  /** The total of the last group of the given type, or 0 when there is none. */
  function LastTotal(groups: seq<TotalsRow>, t: ApiType): real {
    if groups == [] then 0.0
    else if groups[|groups| - 1].apiType == Str(t.Name()) then groups[|groups| - 1].total
    else LastTotal(groups[..|groups| - 1], t)
  }

  /** The counts of all groups added up. */
  function CountSum(groups: seq<TotalsRow>): int {
    if groups == [] then 0 else CountSum(groups[..|groups| - 1]) + groups[|groups| - 1].count
  }

  /**
    * The totals fold of `getTransactionSummary`: income and expense come from
    * their group, every group's count is added, and the net balance is income
    * less expense.
    */
  method SummarizeTotals(groups: seq<TotalsRow>) returns (s: Totals)
    ensures s.totalIncome == LastTotal(groups, Income)
    ensures s.totalExpense == LastTotal(groups, Expense)
    ensures s.transactionCount == CountSum(groups)
    ensures s.netBalance == s.totalIncome - s.totalExpense
  {
    s := Totals(0.0, 0.0, 0.0, 0);
    for i := 0 to |groups|
      invariant s.totalIncome == LastTotal(groups[..i], Income)
      invariant s.totalExpense == LastTotal(groups[..i], Expense)
      invariant s.transactionCount == CountSum(groups[..i])
    {
      assert groups[..i + 1][..i] == groups[..i];
      var row := groups[i];
      if row.apiType == Str("INCOME") {
        s := s.(totalIncome := row.total);
      } else if row.apiType == Str("EXPENSE") {
        s := s.(totalExpense := row.total);
      }
      s := s.(transactionCount := s.transactionCount + row.count);
    }
    assert groups[..|groups|] == groups;
    s := s.(netBalance := s.totalIncome - s.totalExpense);
  }

  /** GROUP BY gives each type at most one group: its total is the type's total, and a missing type totals 0. */
  lemma {:induction false} LastTotalOfGroup(groups: seq<TotalsRow>, t: ApiType)
    requires forall i, j :: 0 <= i < j < |groups| && groups[i].apiType == Str(t.Name()) ==> groups[j].apiType != Str(t.Name())
    ensures (forall i :: 0 <= i < |groups| ==> groups[i].apiType != Str(t.Name())) ==> LastTotal(groups, t) == 0.0
    ensures forall i :: 0 <= i < |groups| && groups[i].apiType == Str(t.Name()) ==> LastTotal(groups, t) == groups[i].total
  {
    if groups != [] {
      var n := |groups| - 1;
      LastTotalOfGroup(groups[..n], t);
      assert forall i :: 0 <= i < n ==> groups[..n][i] == groups[i];
    }
  }

  lemma {:induction false} CountSumAppend(a: seq<TotalsRow>, b: seq<TotalsRow>)
    ensures CountSum(a + b) == CountSum(a) + CountSum(b)
    decreases |b|
  {
    if b == [] {
      assert a + b == a;
    } else {
      assert (a + b)[..|a + b| - 1] == a + b[..|b| - 1];
      CountSumAppend(a, b[..|b| - 1]);
    }
  }

  /** With non-negative group counts the transaction count is at least each group's count. */
  lemma {:induction false} CountSumBounds(groups: seq<TotalsRow>, i: nat)
    requires i < |groups| && forall j :: 0 <= j < |groups| ==> groups[j].count >= 0
    ensures CountSum(groups) >= groups[i].count >= 0
  {
    var n := |groups| - 1;
    CountSumNonNegative(groups[..n]);
    if i < n {
      assert groups[..n][i] == groups[i];
      CountSumBounds(groups[..n], i);
    }
  }

  lemma {:induction false} CountSumNonNegative(groups: seq<TotalsRow>)
    requires forall j :: 0 <= j < |groups| ==> groups[j].count >= 0
    ensures CountSum(groups) >= 0
  {
    if groups != [] {
      CountSumNonNegative(groups[..|groups| - 1]);
    }
  }

  /** One row of the category query: an expense category, its sum and its count. */
  datatype CategoryRow = CategoryRow(category: Value, total: real, count: int)

  datatype CategoryShare = CategoryShare(category: Value, total: real, count: int, percentage: real)

  /** `categoryBreakdown`: each category's share of the total expense in percent, or 0 when there is no expense. */
  function CategoryBreakdown(rows: seq<CategoryRow>, totalExpense: real): (r: seq<CategoryShare>)
    ensures |r| == |rows|
    ensures forall i :: 0 <= i < |r| ==>
      r[i].category == rows[i].category && r[i].total == rows[i].total && r[i].count == rows[i].count
    ensures totalExpense > 0.0 ==> forall i :: 0 <= i < |r| ==> r[i].percentage * totalExpense == rows[i].total * 100.0
    ensures totalExpense <= 0.0 ==> forall i :: 0 <= i < |r| ==> r[i].percentage == 0.0
  {
    seq(|rows|, i requires 0 <= i < |rows| =>
      CategoryShare(rows[i].category, rows[i].total, rows[i].count,
        if totalExpense > 0.0 then (rows[i].total / totalExpense) * 100.0 else 0.0))
  }

  function CategoryTotal(rows: seq<CategoryRow>): real {
    if rows == [] then 0.0 else CategoryTotal(rows[..|rows| - 1]) + rows[|rows| - 1].total
  }

  function PercentageSum(shares: seq<CategoryShare>): real {
    if shares == [] then 0.0 else PercentageSum(shares[..|shares| - 1]) + shares[|shares| - 1].percentage
  }

  lemma {:induction false} PercentageSumScales(rows: seq<CategoryRow>, totalExpense: real)
    requires totalExpense > 0.0
    ensures PercentageSum(CategoryBreakdown(rows, totalExpense)) * totalExpense == CategoryTotal(rows) * 100.0
  {
    if rows != [] {
      var n := |rows| - 1;
      var r := CategoryBreakdown(rows, totalExpense);
      assert CategoryBreakdown(rows[..n], totalExpense) == r[..n];
      PercentageSumScales(rows[..n], totalExpense);
      assert PercentageSum(r) == PercentageSum(r[..n]) + r[n].percentage;
    }
  }

  /** When the categories account for the whole expense, their percentages add up to 100. */
  lemma PercentagesSumToHundred(rows: seq<CategoryRow>, totalExpense: real)
    requires totalExpense > 0.0 && CategoryTotal(rows) == totalExpense
    ensures PercentageSum(CategoryBreakdown(rows, totalExpense)) == 100.0
  {
    PercentageSumScales(rows, totalExpense);
    var p := PercentageSum(CategoryBreakdown(rows, totalExpense));
    assert p * totalExpense == 100.0 * totalExpense;
    assert p == (p * totalExpense) / totalExpense;
  }

  // ---------------------------------------------------------------------------
  // getTransactionSummary: the monthly trend

  /** One row of the trend query: a `YYYY-MM` month, an API type and its sum. */
  datatype TrendRow = TrendRow(month: string, apiType: Value, total: real)

  datatype MonthTrend = MonthTrend(month: string, income: real, expense: real)

  /** A trend row laid over its month: an INCOME or EXPENSE total replaces that side. */
  function SetTrend(t: MonthTrend, row: TrendRow): (r: MonthTrend)
    ensures r.month == t.month
    ensures r.income == (if row.apiType == Str(Income.Name()) then row.total else t.income)
    ensures r.expense == (if row.apiType == Str(Expense.Name()) then row.total else t.expense)
  {
    if row.apiType == Str("INCOME") then t.(income := row.total)
    else if row.apiType == Str("EXPENSE") then t.(expense := row.total)
    else t
  }

  /** The position of the month in the trend, or the trend's length when absent. */
  function IndexOfMonth(trend: seq<MonthTrend>, month: string): (i: nat)
    ensures i <= |trend|
    ensures i < |trend| ==> trend[i].month == month
    ensures forall j :: 0 <= j < i ==> trend[j].month != month
  {
    if trend == [] then 0
    else if trend[0].month == month then 0
    else 1 + IndexOfMonth(trend[1..], month)
  }

  /** The trend after the rows, one entry per month in order of first appearance. */
  function Trend(rows: seq<TrendRow>): seq<MonthTrend> {
    if rows == [] then []
    else
      var prev := Trend(rows[..|rows| - 1]);
      var row := rows[|rows| - 1];
      var i := IndexOfMonth(prev, row.month);
      if i < |prev| then prev[i := SetTrend(prev[i], row)]
      else prev + [SetTrend(MonthTrend(row.month, 0.0, 0.0), row)]
  }

  /** The total of the month's last row of the type, or 0 when it has none. */
  function LastMonthTotal(rows: seq<TrendRow>, month: string, t: ApiType): real {
    if rows == [] then 0.0
    else
      var row := rows[|rows| - 1];
      if row.month == month && row.apiType == Str(t.Name()) then row.total
      else LastMonthTotal(rows[..|rows| - 1], month, t)
  }

  /** The entries already in the trend keep their months, and a new month goes last. */
  lemma TrendStep(rows: seq<TrendRow>)
    requires rows != []
    ensures var prev := Trend(rows[..|rows| - 1]);
      && |prev| <= |Trend(rows)| <= |prev| + 1
      && (forall j :: 0 <= j < |prev| ==> Trend(rows)[j].month == prev[j].month)
      && (|Trend(rows)| == |prev| + 1 ==> Trend(rows)[|prev|].month == rows[|rows| - 1].month)
      && (|Trend(rows)| == |prev| <==> IndexOfMonth(prev, rows[|rows| - 1].month) < |prev|)
  {
  }

  /** Each month appears in the trend at most once. */
  lemma {:induction false} TrendDistinct(rows: seq<TrendRow>)
    ensures forall i, j :: 0 <= i < j < |Trend(rows)| ==> Trend(rows)[i].month != Trend(rows)[j].month
  {
    if rows != [] {
      TrendDistinct(rows[..|rows| - 1]);
      TrendStep(rows);
    }
  }

  /** A month some row has is in the trend. */
  lemma {:induction false} RowMonthInTrend(rows: seq<TrendRow>, month: string, k: nat)
    requires k < |rows| && rows[k].month == month
    ensures IndexOfMonth(Trend(rows), month) < |Trend(rows)|
  {
    var n := |rows| - 1;
    var prev, t := Trend(rows[..n]), Trend(rows);
    TrendStep(rows);
    if k < n {
      assert rows[..n][k] == rows[k];
      RowMonthInTrend(rows[..n], month, k);
      var j := IndexOfMonth(prev, month);
      assert t[j].month == month;
    } else if IndexOfMonth(prev, month) == |prev| {
      assert t[|prev|].month == month;
    } else {
      var j := IndexOfMonth(prev, month);
      assert t[j].month == month;
    }
  }

  /** A month in the trend comes from some row. */
  lemma {:induction false} TrendMonthHasRow(rows: seq<TrendRow>, month: string)
    requires IndexOfMonth(Trend(rows), month) < |Trend(rows)|
    ensures exists k :: 0 <= k < |rows| && rows[k].month == month
  {
    var n := |rows| - 1;
    var prev, t := Trend(rows[..n]), Trend(rows);
    TrendStep(rows);
    var j := IndexOfMonth(t, month);
    if j < |prev| {
      assert prev[j].month == month;
      TrendMonthHasRow(rows[..n], month);
      var k :| 0 <= k < n && rows[..n][k].month == month;
      assert rows[k] == rows[..n][k];
    } else {
      assert rows[n].month == month;
    }
  }

  /** A month is in the trend exactly when some row has it. */
  lemma TrendHasMonth(rows: seq<TrendRow>, month: string)
    ensures IndexOfMonth(Trend(rows), month) < |Trend(rows)| <==> exists k :: 0 <= k < |rows| && rows[k].month == month
  {
    if k :| 0 <= k < |rows| && rows[k].month == month {
      RowMonthInTrend(rows, month, k);
    }
    if IndexOfMonth(Trend(rows), month) < |Trend(rows)| {
      TrendMonthHasRow(rows, month);
    }
  }

  /** A month no row has totals 0. */
  lemma {:induction false} LastMonthTotalAbsent(rows: seq<TrendRow>, month: string, t: ApiType)
    requires forall k :: 0 <= k < |rows| ==> rows[k].month != month
    ensures LastMonthTotal(rows, month, t) == 0.0
  {
    if rows != [] {
      var n := |rows| - 1;
      assert forall k :: 0 <= k < n ==> rows[..n][k] == rows[k];
      LastMonthTotalAbsent(rows[..n], month, t);
    }
  }

  /** Each month's income and expense are the totals of its last INCOME and EXPENSE rows, or 0. */
  lemma {:induction false} TrendTotals(rows: seq<TrendRow>, j: nat)
    requires j < |Trend(rows)|
    ensures Trend(rows)[j].income == LastMonthTotal(rows, Trend(rows)[j].month, Income)
    ensures Trend(rows)[j].expense == LastMonthTotal(rows, Trend(rows)[j].month, Expense)
  {
    var n := |rows| - 1;
    var prev, t, row := Trend(rows[..n]), Trend(rows), rows[n];
    TrendStep(rows);
    TrendDistinct(rows);
    var m := t[j].month;
    if j < |prev| {
      TrendTotals(rows[..n], j);
    } else {
      TrendHasMonth(rows[..n], m);
      assert IndexOfMonth(prev, m) == |prev|;
      LastMonthTotalAbsent(rows[..n], m, Income);
      LastMonthTotalAbsent(rows[..n], m, Expense);
    }
  }

  /** The months of the trend come in order of their first row. */
  lemma {:induction false} TrendOrder(rows: seq<TrendRow>, i: nat, j: nat)
    requires i < j < |Trend(rows)|
    ensures exists k :: 0 <= k < |rows| && rows[k].month == Trend(rows)[i].month &&
                       forall l :: 0 <= l <= k ==> rows[l].month != Trend(rows)[j].month
  {
    var n := |rows| - 1;
    var prev, t := Trend(rows[..n]), Trend(rows);
    TrendStep(rows);
    assert forall k :: 0 <= k < n ==> rows[..n][k] == rows[k];
    if j < |prev| {
      TrendOrder(rows[..n], i, j);
      var k :| 0 <= k < n && rows[..n][k].month == prev[i].month &&
        forall l :: 0 <= l <= k ==> rows[..n][l].month != prev[j].month;
      assert rows[k].month == t[i].month;
    } else {
      TrendHasMonth(rows[..n], prev[i].month);
      TrendHasMonth(rows[..n], t[j].month);
      var k :| 0 <= k < n && rows[..n][k].month == prev[i].month;
      assert rows[k].month == t[i].month;
      assert forall l :: 0 <= l < n ==> rows[l].month != t[j].month by {
        forall l | 0 <= l < n ensures rows[l].month != t[j].month {
          assert rows[..n][l] == rows[l];
        }
      }
    }
  }

  /** `Array.from(trendMap.values())`: the entries in insertion order. */
  function MapValues(order: seq<string>, entries: map<string, MonthTrend>): (r: seq<MonthTrend>)
    requires forall j :: 0 <= j < |order| ==> order[j] in entries
    ensures |r| == |order| && forall j :: 0 <= j < |order| ==> r[j] == entries[order[j]]
  {
    seq(|order|, j requires 0 <= j < |order| => entries[order[j]])
  }

  /** A JavaScript Map from month to entry: its keys in insertion order, each once, each entry under its month. */
  ghost predicate TrendMap(order: seq<string>, entries: map<string, MonthTrend>) {
    && (forall j :: 0 <= j < |order| ==> order[j] in entries && entries[order[j]].month == order[j])
    && (forall m :: m in entries ==> m in order)
    && (forall i, j :: 0 <= i < j < |order| ==> order[i] != order[j])
  }

  /** `trendMap.set` of a new month appends an entry. */
  lemma TrendMapAdd(order: seq<string>, entries: map<string, MonthTrend>, v: MonthTrend)
    requires TrendMap(order, entries) && v.month !in entries
    ensures TrendMap(order + [v.month], entries[v.month := v])
    ensures MapValues(order + [v.month], entries[v.month := v]) == MapValues(order, entries) + [v]
    ensures IndexOfMonth(MapValues(order, entries), v.month) == |order|
  {
  }

  /** `trendMap.set` of a month already there replaces its entry in place. */
  lemma TrendMapSet(order: seq<string>, entries: map<string, MonthTrend>, v: MonthTrend)
    requires TrendMap(order, entries) && v.month in entries
    ensures TrendMap(order, entries[v.month := v])
    ensures var i := IndexOfMonth(MapValues(order, entries), v.month);
      i < |order| && MapValues(order, entries[v.month := v]) == MapValues(order, entries)[i := v]
  {
    var prev := MapValues(order, entries);
    var k :| 0 <= k < |order| && order[k] == v.month;
    var i := IndexOfMonth(prev, v.month);
    assert prev[k].month == v.month;
    assert i < |order| && order[i] == v.month;
  }

  /** The trend after one more row, in terms of the trend before it. */
  lemma TrendLast(rows: seq<TrendRow>, i: nat)
    requires i < |rows|
    ensures var prev := Trend(rows[..i]);
      var j := IndexOfMonth(prev, rows[i].month);
      Trend(rows[..i + 1]) ==
        if j < |prev| then prev[j := SetTrend(prev[j], rows[i])]
        else prev + [SetTrend(MonthTrend(rows[i].month, 0.0, 0.0), rows[i])]
  {
    assert rows[..i + 1][..i] == rows[..i];
  }

  /** One turn of the fold: the map after row `i` holds the trend of the rows up to and including it. */
  lemma TrendFoldStep(rows: seq<TrendRow>, i: nat, order: seq<string>, entries: map<string, MonthTrend>)
    requires i < |rows| && TrendMap(order, entries) && MapValues(order, entries) == Trend(rows[..i])
    ensures var m := rows[i].month;
      var x := SetTrend(if m in entries then entries[m] else MonthTrend(m, 0.0, 0.0), rows[i]);
      var order' := if m in entries then order else order + [m];
      && TrendMap(order', entries[m := x])
      && MapValues(order', entries[m := x]) == Trend(rows[..i + 1])
  {
    TrendLast(rows, i);
    var m := rows[i].month;
    if m in entries {
      TrendMapSet(order, entries, SetTrend(entries[m], rows[i]));
    } else {
      TrendMapAdd(order, entries, SetTrend(MonthTrend(m, 0.0, 0.0), rows[i]));
    }
  }

  /**
    * The `trendMap` fold: a JavaScript Map from month to entry, filled in row
    * order, whose values are read back in insertion order.
    */
  method MonthlyTrend(rows: seq<TrendRow>) returns (trend: seq<MonthTrend>)
    ensures trend == Trend(rows)
  {
    var order: seq<string> := [];
    var entries: map<string, MonthTrend> := map[];
    for i := 0 to |rows|
      invariant TrendMap(order, entries)
      invariant MapValues(order, entries) == Trend(rows[..i])
    {
      var row := rows[i];
      ghost var order0, entries0 := order, entries;
      if row.month !in entries {
        entries := entries[row.month := MonthTrend(row.month, 0.0, 0.0)];
        order := order + [row.month];
      }
      var t := entries[row.month];
      entries := entries[row.month := SetTrend(t, row)];
      TrendFoldStep(rows, i, order0, entries0);
      assert entries == entries0[row.month := SetTrend(t, row)];
    }
    assert rows[..|rows|] == rows;
    trend := MapValues(order, entries);
  }

  // ---------------------------------------------------------------------------
  // The `transactions` table

  /** The rows of the `transactions` table, keyed by their `id`. */
  class TransactionStore {
    var rows: map<string, Row>

    /** Every row sits under its own id. */
    predicate Valid()
      reads this
    {
      KeyedById(rows)
    }

    constructor()
      ensures rows == map[] && Valid()
    {
      rows := map[];
    }

    /** `WHERE id = $1 AND user_id = $2`: the row exists and belongs to the user. */
    predicate Owns(userId: string, transactionId: string)
      reads this
    {
      transactionId in rows && Col(rows[transactionId], "user_id") == Str(userId)
    }

    /** Writes one row under its own id. */
    method PutRow(id: string, row: Row)
      requires Valid() && Col(row, "id") == Str(id)
      modifies this
      ensures Valid() && rows == old(rows)[id := row]
    {
      KeyedByIdPut(rows, id, row);
      rows := rows[id := row];
    }

    /**
      * `createTransaction`: inserts the row with its defaults and returns it in
      * the API's terms.  `newId` is the id the database generates and `now`
      * the clock.
      */
    method CreateTransaction(userId: string, data: TransactionInput, newId: string, now: int) returns (created: Row)
      requires Valid() && newId !in rows
      modifies this
      ensures Valid()
      ensures rows == old(rows)[newId := NewTransactionRow(newId, userId, data, now)]
      ensures Owns(userId, newId)
      ensures created == ApiView(rows[newId])
    {
      var metadata := CollectMetadata(data);
      var row := NewTransactionRow(newId, userId, data, now)["metadata" := Obj(metadata)];
      assert row == NewTransactionRow(newId, userId, data, now);
      PutRow(newId, row);
      created := ApiView(row);
    }

    /** `getTransactionById`: the user's own row, or "Transaction not found". */
    function GetTransactionById(userId: string, transactionId: string): (r: Result<Row>)
      reads this
      ensures r.Ok? <==> Owns(userId, transactionId)
      ensures r.Ok? ==> r.value == ApiView(rows[transactionId])
      ensures r.Err? ==> r.message == "Transaction not found"
    {
      if Owns(userId, transactionId) then Ok(ApiView(rows[transactionId])) else Err("Transaction not found")
    }

    /** The ids of the rows a WHERE clause selects. */
    function Selected(engine: Engine, conditions: seq<Condition>, values: seq<Value>): set<string>
      reads this
    {
      set id | id in rows && HoldsAll(engine, rows[id], conditions, values)
    }

    /**
      * `getTransactions`: counts the rows the filters select and binds LIMIT and
      * OFFSET to the next two placeholders.  A negative LIMIT or OFFSET is
      * rejected by the database.
      */
    method GetTransactions(engine: Engine, userId: string, f: TransactionFilters) returns (r: Result<TransactionPage>)
      requires Valid()
      ensures r.Err? <==> f.limit < 0 || (f.page - 1) * f.limit < 0
      ensures r.Ok? ==>
        var p := r.value;
        && p.total == |set id | id in rows && MatchesFilters(engine, rows[id], userId, f)|
        && p.page == f.page
        && p.totalPages == TotalPages(p.total, f.limit)
        && |p.conditions| >= 1 && |p.values| == |p.conditions| + 2
        && Numbered(Params(p.conditions), p.values[..|p.values| - 2])
        && p.conditions[0] == Compare("user_id", Equal, 1) && p.values[0] == Str(userId)
        && p.limitParam == |p.values| - 1 && p.offsetParam == |p.values|
        && p.values[p.limitParam - 1] == Num(f.limit as real)
        && p.values[p.offsetParam - 1] == Num(((f.page - 1) * f.limit) as real)
    {
      var conditions, values := BuildTransactionFilter(userId, f);
      var paramCount := |values|;
      var total := |Selected(engine, conditions, values)|;
      assert Selected(engine, conditions, values) == set id | id in rows && MatchesFilters(engine, rows[id], userId, f);
      var offset := (f.page - 1) * f.limit;
      if f.limit < 0 {
        return Err("LIMIT must not be negative");
      }
      if offset < 0 {
        return Err("OFFSET must not be negative");
      }
      var bound := values + [Num(f.limit as real), Num(offset as real)];
      assert bound[..|bound| - 2] == values;
      r := Ok(TransactionPage(total, f.page, TotalPages(total, f.limit), conditions, bound, paramCount + 1, paramCount + 2));
    }

    /**
      * `updateTransaction`: the user's row must exist; the SET list is built
      * against its metadata and applied to it alone.
      */
    method UpdateTransaction(userId: string, transactionId: string, data: Entries) returns (r: Result<Row>)
      requires Valid()
      modifies this
      ensures Valid()
      ensures !old(Owns(userId, transactionId)) ==> r == Err("Transaction not found") && rows == old(rows)
      ensures old(Owns(userId, transactionId)) ==>
        var before := old(rows)[transactionId];
        if TransactionWrites(data, Col(before, "metadata")) == [] then
          r == Err("No fields to update") && rows == old(rows)
        else
          && rows == old(rows)[transactionId := UpdatedRow(before, data)]
          && r == Ok(ApiView(UpdatedRow(before, data)))
    {
      var existing := GetTransactionById(userId, transactionId);
      if existing.Err? {
        return Err(existing.message);
      }
      ghost var before := rows[transactionId];
      ApiViewKeepsMetadata(before);
      var u := BuildTransactionUpdate(userId, transactionId, data, Col(existing.value, "metadata"));
      if u.Err? {
        return Err(u.message);
      }
      // WHERE id = $n-1 AND user_id = $n picks the row just read
      var after := ApplyWrites(rows[transactionId], u.value.Writes());
      UpdateKeepsKeys(rows, transactionId, data);
      rows := rows[transactionId := after];
      r := Ok(ApiView(after));
    }

    /** `deleteTransaction`: the user's row must exist, and it is removed. */
    method DeleteTransaction(userId: string, transactionId: string) returns (r: Result<()>)
      requires Valid()
      modifies this
      ensures Valid()
      ensures r.Ok? <==> old(Owns(userId, transactionId))
      ensures r.Err? ==> r.message == "Transaction not found" && rows == old(rows)
      ensures r.Ok? ==> rows == old(rows) - {transactionId} && !Owns(userId, transactionId)
    {
      var existing := GetTransactionById(userId, transactionId);
      if existing.Err? {
        return Err(existing.message);
      }
      rows := rows - {transactionId};
      r := Ok(());
    }
  }
}
