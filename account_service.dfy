/**
  * `AccountService`: the `linked_accounts` table and the `sync_logs` it
  * writes while syncing.  Linking an account fills in the defaults, updates
  * write only whitelisted columns, deleting is a soft delete, and a sync
  * moves the account and its log through their statuses.
  *
  * The column defaults of the schema (`is_active`, `sync_status`, the
  * timestamps, …) are a parameter: the schema is not part of this model.
  */
module AccountService {
  import opened Wrappers
  import opened JsValues
  import opened Sql

  // ---------------------------------------------------------------------------
  // linkAccount

  /** The request of `linkAccount`; an absent field is `Undefined`. */
  datatype LinkedAccountInput = LinkedAccountInput(
    accountType: Value,
    provider: Value,
    accountNumber: Value,
    accountHolderName: Value,
    ifscCode: Value,
    syncFrequency: Value,
    metadata: Value)

  /**
    * The inserted row: the schema's `defaults` with the eight inserted
    * columns laid over them.  `syncFrequency` and `metadata` take their
    * destructuring defaults; the three optional identifiers go through `|| null`.
    */
  function NewAccountRow(id: string, userId: string, data: LinkedAccountInput, defaults: Row): (row: Row)
    ensures Col(row, "id") == Str(id) && Col(row, "user_id") == Str(userId)
    ensures Col(row, "account_type") == data.accountType && Col(row, "provider") == data.provider
    ensures Col(row, "sync_frequency") == (if data.syncFrequency == Undefined then Str("DAILY") else data.syncFrequency)
    ensures Col(row, "metadata") == (if data.metadata == Undefined then Obj(map[]) else data.metadata)
    ensures Col(row, "account_number") == (if Truthy(data.accountNumber) then data.accountNumber else Null)
    ensures Col(row, "account_holder_name") == (if Truthy(data.accountHolderName) then data.accountHolderName else Null)
    ensures Col(row, "ifsc_code") == (if Truthy(data.ifscCode) then data.ifscCode else Null)
    ensures forall c :: c in defaults && c !in INSERTED_COLUMNS ==> Col(row, c) == defaults[c]
  {
    defaults + map[
      "id" := Str(id),
      "user_id" := Str(userId),
      "account_type" := data.accountType,
      "provider" := data.provider,
      "account_number" := Or(data.accountNumber, Null),
      "account_holder_name" := Or(data.accountHolderName, Null),
      "ifsc_code" := Or(data.ifscCode, Null),
      "sync_frequency" := Default(data.syncFrequency, Str("DAILY")),
      "metadata" := Default(data.metadata, Obj(map[]))]
  }

  /** The columns `linkAccount` gives a value, and the generated `id`. */
  const INSERTED_COLUMNS: set<string> :=
    {"id", "user_id", "account_type", "provider", "account_number", "account_holder_name",
     "ifsc_code", "sync_frequency", "metadata"}

  // ---------------------------------------------------------------------------
  // getLinkedAccounts and getSyncLogs

  /** A SELECT over one table: its WHERE clause and bound values, its order and its row cap. */
  datatype AccountQuery = AccountQuery(
    conditions: seq<Condition>,
    values: seq<Value>,
    orderBy: string,
    descending: bool,
    limit: Option<nat>)

  /** `user_id = $1`, then `is_active = true` unless inactive accounts are wanted. */
  function LinkedAccountsConditions(includeInactive: bool): seq<Condition> {
    [Compare("user_id", Equal, 1)] + (if includeInactive then [] else [IsTrue("is_active")])
  }

  /** The accounts `getLinkedAccounts` lists: the user's, and only the active ones unless told otherwise. */
  predicate IsListedAccount(row: Row, userId: string, includeInactive: bool) {
    Col(row, "user_id") == Str(userId) && (includeInactive || Col(row, "is_active") == Bool(true))
  }

  lemma LinkedAccountsNumbered(userId: string, includeInactive: bool)
    ensures Numbered(Params(LinkedAccountsConditions(includeInactive)), [Str(userId)])
  {
    var base := [Compare("user_id", Equal, 1)];
    assert base[..0] == [];
    assert Params(base) == [1];
    if !includeInactive {
      ParamsAppend(base, IsTrue("is_active"));
    } else {
      assert LinkedAccountsConditions(includeInactive) == base;
    }
  }

  /** The WHERE clause of `getLinkedAccounts` selects exactly the listed accounts. */
  lemma LinkedAccountsMeaning(engine: Engine, row: Row, userId: string, includeInactive: bool)
    ensures HoldsAll(engine, row, LinkedAccountsConditions(includeInactive), [Str(userId)]) <==>
      IsListedAccount(row, userId, includeInactive)
  {
    var conditions := LinkedAccountsConditions(includeInactive);
    assert Holds(engine, row, conditions[0], [Str(userId)]) <==> Col(row, "user_id") == Str(userId);
    if !includeInactive {
      assert Holds(engine, row, conditions[1], [Str(userId)]) <==> Col(row, "is_active") == Bool(true);
    }
  }

  /** `getLinkedAccounts`: the query string grows by `+=`, newest accounts first. */
  method BuildLinkedAccountsQuery(userId: string, includeInactive: bool) returns (q: AccountQuery)
    ensures q.conditions == LinkedAccountsConditions(includeInactive) && q.values == [Str(userId)]
    ensures q.orderBy == "created_at" && q.descending && q.limit == None
  {
    var conditions := [Compare("user_id", Equal, 1)];
    if !includeInactive {
      conditions := conditions + [IsTrue("is_active")];
    }
    q := AccountQuery(conditions, [Str(userId)], "created_at", true, None);
  }

  /** `user_id = $1`, then `linked_account_id = $2` when an account id is given. */
  function SyncLogsConditions(accountId: Option<string>): seq<Condition> {
    [Compare("user_id", Equal, 1)] + (if Truthy(OfString(accountId)) then [Compare("linked_account_id", Equal, 2)] else [])
  }

  function SyncLogsValues(userId: string, accountId: Option<string>): seq<Value> {
    [Str(userId)] + (if Truthy(OfString(accountId)) then [Str(accountId.value)] else [])
  }

  /** The logs `getSyncLogs` considers: the user's, of the given account when one is given. */
  predicate IsListedLog(row: Row, userId: string, accountId: Option<string>) {
    Col(row, "user_id") == Str(userId) && (Truthy(OfString(accountId)) ==> Col(row, "linked_account_id") == Str(accountId.value))
  }

  lemma SyncLogsNumbered(userId: string, accountId: Option<string>)
    ensures Numbered(Params(SyncLogsConditions(accountId)), SyncLogsValues(userId, accountId))
  {
    var base := [Compare("user_id", Equal, 1)];
    assert base[..0] == [];
    assert Params(base) == [1];
    if Truthy(OfString(accountId)) {
      ParamsAppend(base, Compare("linked_account_id", Equal, 2));
    } else {
      assert SyncLogsConditions(accountId) == base;
    }
  }

  /** The WHERE clause of `getSyncLogs` selects exactly the listed logs. */
  lemma SyncLogsMeaning(engine: Engine, row: Row, userId: string, accountId: Option<string>)
    ensures HoldsAll(engine, row, SyncLogsConditions(accountId), SyncLogsValues(userId, accountId)) <==>
      IsListedLog(row, userId, accountId)
  {
    var conditions, values := SyncLogsConditions(accountId), SyncLogsValues(userId, accountId);
    assert Holds(engine, row, conditions[0], values) <==> Col(row, "user_id") == Str(userId);
    if Truthy(OfString(accountId)) {
      assert Holds(engine, row, conditions[1], values) <==> Col(row, "linked_account_id") == Str(accountId.value);
    }
  }

  /** `getSyncLogs`: the account filter as `$2` only for a given account id, newest first, at most 50 rows. */
  method BuildSyncLogsQuery(userId: string, accountId: Option<string>) returns (q: AccountQuery)
    ensures q.conditions == SyncLogsConditions(accountId) && q.values == SyncLogsValues(userId, accountId)
    ensures q.orderBy == "started_at" && q.descending && q.limit == Some(50)
  {
    var conditions := [Compare("user_id", Equal, 1)];
    var values := [Str(userId)];
    if Truthy(OfString(accountId)) {
      conditions := conditions + [Compare("linked_account_id", Equal, 2)];
      values := values + [Str(accountId.value)];
    }
    q := AccountQuery(conditions, values, "started_at", true, Some(50));
  }

  // ---------------------------------------------------------------------------
  // updateAccount: the SET list

  /** `allowedFields`: the request keys an update may set, each with its column. */
  const ALLOWED_FIELDS: map<string, string> :=
    map["accountBalance" := "account_balance", "syncStatus" := "sync_status", "syncFrequency" := "sync_frequency",
        "lastSyncedAt" := "last_synced_at", "isActive" := "is_active"]

  /** The columns an update may write. */
  const ACCOUNT_UPDATABLE: set<string> :=
    {"account_balance", "sync_status", "sync_frequency", "last_synced_at", "is_active"}

  /** Every assignment writes an updatable column, and a defined value. */
  lemma AccountWritesColumns(data: Entries)
    ensures forall i :: 0 <= i < |PickedWrites(ALLOWED_FIELDS, data)| ==>
      PickedWrites(ALLOWED_FIELDS, data)[i].0 in ACCOUNT_UPDATABLE && PickedWrites(ALLOWED_FIELDS, data)[i].1 != Undefined
  {
    var w := PickedWrites(ALLOWED_FIELDS, data);
    forall i | 0 <= i < |w| ensures w[i].0 in ACCOUNT_UPDATABLE && w[i].1 != Undefined {
      PickedWriteHasEntry(ALLOWED_FIELDS, data, w[i]);
      var k :| 0 <= k < |data| && data[k].1 == w[i].1 && data[k].0 in ALLOWED_FIELDS && ALLOWED_FIELDS[data[k].0] == w[i].0;
      assert data[k].0 in {"accountBalance", "syncStatus", "syncFrequency", "lastSyncedAt", "isActive"};
    }
  }

  /** No two request keys name the same column. */
  lemma AllowedFieldsInjective(a: string, b: string)
    requires a in ALLOWED_FIELDS && b in ALLOWED_FIELDS && ALLOWED_FIELDS[a] == ALLOWED_FIELDS[b]
    ensures a == b
  {
    assert a in {"accountBalance", "syncStatus", "syncFrequency", "lastSyncedAt", "isActive"};
    assert b in {"accountBalance", "syncStatus", "syncFrequency", "lastSyncedAt", "isActive"};
  }

  /**
    * The source tests `allowedFields[key]`, which the request key
    * `constructor` passes through the member every object inherits: the SET
    * list then names a column that does not exist and the database rejects
    * the update, where the whitelist ignores the key and answers "No fields
    * to update".
    */
  lemma InheritedAccountKeyReachesSetList()
    ensures var data := [("constructor", Bool(true))];
      && PickedWritesAsWritten(ALLOWED_FIELDS, data) == [("function Object() { [native code] }", Bool(true))]
      && "function Object() { [native code] }" !in ACCOUNT_UPDATABLE
      && PickedWrites(ALLOWED_FIELDS, data) == []
  {
    var data := [("constructor", Bool(true))];
    assert data[..0] == [];
  }

  /**
    * The SET list of `updateAccount` with its placeholders: each defined
    * whitelisted field in request order, numbered from `$1`; the account id
    * and the user id are the last two.
    */
  method BuildAccountUpdate(userId: string, accountId: string, data: Entries) returns (r: Result<Update>)
    ensures r.Err? <==> PickedWrites(ALLOWED_FIELDS, data) == []
    ensures r.Err? ==> r.message == "No fields to update"
    ensures r.Ok? ==>
      && r.value.WellNumbered()
      && r.value.Writes() == PickedWrites(ALLOWED_FIELDS, data)
      && r.value.IdValue() == Str(accountId)
      && r.value.OwnerValue() == Str(userId)
  {
    var fields: seq<Assignment>, values: seq<Value>, writes := PushPicked(ALLOWED_FIELDS, data, [], [], []);
    var paramCount := |fields|;
    if |fields| == 0 {
      return Err("No fields to update");
    }
    ListedWrites(fields, values, writes, Str(accountId), Str(userId));
    paramCount := paramCount + 1;
    values := values + [Str(accountId)];
    paramCount := paramCount + 1;
    values := values + [Str(userId)];
    r := Ok(Update(fields, values, paramCount - 1, paramCount));
  }

  /** The row after `updateAccount` with request `data`. */
  function UpdatedAccount(row: Row, data: Entries): Row {
    ApplyWrites(row, PickedWrites(ALLOWED_FIELDS, data))
  }

  /** An update never touches a column outside the whitelist: id, owner, provider and the rest stay. */
  lemma UpdateAccountKeepsOtherColumns(row: Row, data: Entries, column: string)
    requires column !in ACCOUNT_UPDATABLE
    ensures Col(UpdatedAccount(row, data), column) == Col(row, column)
  {
    AccountWritesColumns(data);
    ApplyWritesUntouched(row, PickedWrites(ALLOWED_FIELDS, data), column);
  }

  /** A request entry with a defined value under a whitelisted key is what its column holds afterwards. */
  lemma UpdateAccountSetsField(row: Row, data: Entries, i: nat)
    requires DistinctKeys(data) && i < |data|
    requires data[i].1 != Undefined && data[i].0 in ALLOWED_FIELDS
    ensures Col(UpdatedAccount(row, data), ALLOWED_FIELDS[data[i].0]) == data[i].1
  {
    var column := ALLOWED_FIELDS[data[i].0];
    var w := PickedWrites(ALLOWED_FIELDS, data);
    PickedEntryWritten(ALLOWED_FIELDS, data, i);
    forall j | 0 <= j < |w| && w[j].0 == column ensures w[j].1 == data[i].1 {
      assert w[j] in w;
      PickedWriteHasEntry(ALLOWED_FIELDS, data, w[j]);
      var k :| 0 <= k < |data| && data[k].1 == w[j].1 && data[k].0 in ALLOWED_FIELDS && ALLOWED_FIELDS[data[k].0] == column;
      AllowedFieldsInjective(data[k].0, data[i].0);
    }
    ApplyWritesAgree(row, w, column, data[i].1);
  }

  /** The soft delete: the row stays, inactive and with syncing disabled. */
  function SoftDeleted(row: Row): Row {
    row["is_active" := Bool(false)]["sync_status" := Str("DISABLED")]
  }

  /** A soft-deleted account drops out of the default listing and stays in the full one. */
  lemma SoftDeletedHidden(engine: Engine, row: Row, userId: string)
    ensures !HoldsAll(engine, SoftDeleted(row), LinkedAccountsConditions(false), [Str(userId)])
    ensures HoldsAll(engine, SoftDeleted(row), LinkedAccountsConditions(true), [Str(userId)]) <==>
      Col(row, "user_id") == Str(userId)
  {
    LinkedAccountsMeaning(engine, SoftDeleted(row), userId, false);
    LinkedAccountsMeaning(engine, SoftDeleted(row), userId, true);
  }

  // ---------------------------------------------------------------------------
  // syncAccount: the log rows

  /** The log row a sync starts with: MANUAL and STARTED. */
  function StartedLog(id: string, userId: string, accountId: string, now: int): (log: Row)
    ensures Col(log, "id") == Str(id) && Col(log, "user_id") == Str(userId) && Col(log, "linked_account_id") == Str(accountId)
    ensures Col(log, "sync_type") == Str("MANUAL") && Col(log, "status") == Str("STARTED") && Col(log, "started_at") == Date(now)
  {
    map["id" := Str(id), "user_id" := Str(userId), "linked_account_id" := Str(accountId),
        "sync_type" := Str("MANUAL"), "status" := Str("STARTED"), "started_at" := Date(now)]
  }

  /** A finished sync: SUCCESS, with nothing fetched and nothing created. */
  function SucceededLog(log: Row, now: int): (closed: Row)
    ensures Col(closed, "status") == Str("SUCCESS") && Col(closed, "completed_at") == Date(now)
    ensures Col(closed, "transactions_fetched") == Num(0.0) && Col(closed, "transactions_created") == Num(0.0)
    ensures forall c :: c !in {"status", "completed_at", "transactions_fetched", "transactions_created"} ==> Col(closed, c) == Col(log, c)
  {
    log["status" := Str("SUCCESS")]["completed_at" := Date(now)]
       ["transactions_fetched" := Num(0.0)]["transactions_created" := Num(0.0)]
  }

  /** A failed sync: FAILED, with the error's message. */
  function FailedLog(log: Row, now: int, message: string): (closed: Row)
    ensures Col(closed, "status") == Str("FAILED") && Col(closed, "completed_at") == Date(now)
    ensures Col(closed, "error_message") == Str(message)
    ensures forall c :: c !in {"status", "completed_at", "error_message"} ==> Col(closed, c) == Col(log, c)
  {
    log["status" := Str("FAILED")]["completed_at" := Date(now)]["error_message" := Str(message)]
  }

  /** The request `syncAccount` updates the account with before the log is closed. */
  function SyncedFields(now: int): Entries {
    [("lastSyncedAt", Date(now)), ("syncStatus", Str("ACTIVE"))]
  }

  /** The request `syncAccount` updates the account with after a failure. */
  const FAILED_FIELDS: Entries := [("syncStatus", Str("FAILED"))]

  /** The SET list of the account update a successful sync makes. */
  lemma SyncedWrites(now: int)
    ensures PickedWrites(ALLOWED_FIELDS, SyncedFields(now)) == [("last_synced_at", Date(now)), ("sync_status", Str("ACTIVE"))]
  {
    var data := SyncedFields(now);
    assert data[..1] == [data[0]] && data[..1][..0] == [] && data[..1][0] == data[0];
    assert PickedWrites(ALLOWED_FIELDS, data[..1]) == [("last_synced_at", Date(now))];
  }

  /** The SET list of the account update a failed sync makes. */
  lemma FailedWrites()
    ensures PickedWrites(ALLOWED_FIELDS, FAILED_FIELDS) == [("sync_status", Str("FAILED"))]
  {
    assert FAILED_FIELDS[..0] == [];
  }

  /** A synced account is ACTIVE with the sync time stored; a failed one is FAILED; nothing else changes. */
  lemma SyncedAccount(row: Row, now: int)
    ensures Col(UpdatedAccount(row, SyncedFields(now)), "sync_status") == Str("ACTIVE")
    ensures Col(UpdatedAccount(row, SyncedFields(now)), "last_synced_at") == Date(now)
    ensures Col(UpdatedAccount(row, FAILED_FIELDS), "sync_status") == Str("FAILED")
    ensures forall c :: c != "sync_status" && c != "last_synced_at" ==> Col(UpdatedAccount(row, SyncedFields(now)), c) == Col(row, c)
    ensures forall c :: c != "sync_status" ==> Col(UpdatedAccount(row, FAILED_FIELDS), c) == Col(row, c)
  {
    SyncedWrites(now);
    FailedWrites();
    var synced := PickedWrites(ALLOWED_FIELDS, SyncedFields(now));
    var failed := PickedWrites(ALLOWED_FIELDS, FAILED_FIELDS);
    ApplyWritesOnce(row, synced, 0);
    ApplyWritesOnce(row, synced, 1);
    ApplyWritesOnce(row, failed, 0);
    forall c | c != "sync_status" && c != "last_synced_at"
      ensures Col(UpdatedAccount(row, SyncedFields(now)), c) == Col(row, c)
    {
      ApplyWritesUntouched(row, synced, c);
    }
    forall c | c != "sync_status"
      ensures Col(UpdatedAccount(row, FAILED_FIELDS), c) == Col(row, c)
    {
      ApplyWritesUntouched(row, failed, c);
    }
  }

  /** What `syncAccount` reports on success. */
  datatype SyncResult = SyncResult(success: bool, transactionsFetched: nat, transactionsCreated: nat)

  // ---------------------------------------------------------------------------
  // The `linked_accounts` and `sync_logs` tables

  class AccountStore {
    var accounts: map<string, Row>
    var syncLogs: map<string, Row>

    /** Every row sits under its own id. */
    predicate Valid()
      reads this
    {
      KeyedById(accounts) && KeyedById(syncLogs)
    }

    constructor()
      ensures accounts == map[] && syncLogs == map[] && Valid()
    {
      accounts := map[];
      syncLogs := map[];
    }

    /** `WHERE id = $1 AND user_id = $2`: the account exists and belongs to the user. */
    predicate Owns(userId: string, accountId: string)
      reads this
    {
      accountId in accounts && Col(accounts[accountId], "user_id") == Str(userId)
    }

    /**
      * `linkAccount`: inserts the row with its defaults and returns it.
      * `newId` is the id the database generates and `defaults` the schema's
      * column defaults.
      */
    method LinkAccount(userId: string, data: LinkedAccountInput, newId: string, defaults: Row) returns (created: Row)
      requires Valid() && newId !in accounts
      modifies this
      ensures Valid() && syncLogs == old(syncLogs)
      ensures accounts == old(accounts)[newId := NewAccountRow(newId, userId, data, defaults)]
      ensures Owns(userId, newId) && created == accounts[newId]
    {
      created := NewAccountRow(newId, userId, data, defaults);
      PutAccount(newId, created);
    }

    /** The ids of the rows of `table` a WHERE clause selects. */
    static function Selected(table: map<string, Row>, engine: Engine, conditions: seq<Condition>, values: seq<Value>): set<string> {
      set id | id in table && HoldsAll(engine, table[id], conditions, values)
    }

    /** `getLinkedAccounts`: the user's accounts, only the active ones unless `includeInactive`. */
    method GetLinkedAccounts(engine: Engine, userId: string, includeInactive: bool) returns (q: AccountQuery, ids: set<string>)
      ensures Numbered(Params(q.conditions), q.values)
      ensures q.orderBy == "created_at" && q.descending
      ensures forall id :: id in ids <==> id in accounts && IsListedAccount(accounts[id], userId, includeInactive)
    {
      q := BuildLinkedAccountsQuery(userId, includeInactive);
      LinkedAccountsNumbered(userId, includeInactive);
      ids := Selected(accounts, engine, q.conditions, q.values);
      forall id | id in accounts
        ensures id in ids <==> IsListedAccount(accounts[id], userId, includeInactive)
      {
        LinkedAccountsMeaning(engine, accounts[id], userId, includeInactive);
      }
    }

    /** `getAccountById`: the user's own account, or "Account not found". */
    function GetAccountById(userId: string, accountId: string): (r: Result<Row>)
      reads this
      ensures r.Ok? <==> Owns(userId, accountId)
      ensures r.Ok? ==> r.value == accounts[accountId]
      ensures r.Err? ==> r.message == "Account not found"
    {
      if Owns(userId, accountId) then Ok(accounts[accountId]) else Err("Account not found")
    }

    /**
      * `updateAccount`: an empty SET list is refused before the database is
      * asked; otherwise the UPDATE changes the user's account, and matching
      * no row is "Account not found".
      */
    method UpdateAccount(userId: string, accountId: string, data: Entries) returns (r: Result<Row>)
      requires Valid()
      modifies this
      ensures Valid() && syncLogs == old(syncLogs)
      ensures PickedWrites(ALLOWED_FIELDS, data) == [] ==> r == Err("No fields to update") && accounts == old(accounts)
      ensures PickedWrites(ALLOWED_FIELDS, data) != [] && !old(Owns(userId, accountId)) ==>
        r == Err("Account not found") && accounts == old(accounts)
      ensures PickedWrites(ALLOWED_FIELDS, data) != [] && old(Owns(userId, accountId)) ==>
        && accounts == old(accounts)[accountId := UpdatedAccount(old(accounts)[accountId], data)]
        && r == Ok(accounts[accountId])
    {
      var u := BuildAccountUpdate(userId, accountId, data);
      if u.Err? {
        return Err(u.message);
      }
      // WHERE id = $n-1 AND user_id = $n picks the user's row under that id
      if !Owns(userId, accountId) {
        return Err("Account not found");
      }
      var before := accounts[accountId];
      var after := ApplyWrites(before, u.value.Writes());
      UpdateAccountKeepsOtherColumns(before, data, "id");
      PutAccount(accountId, after);
      r := Ok(after);
    }

    /** `deleteAccount`: the soft delete of the user's account; nothing is removed. */
    method DeleteAccount(userId: string, accountId: string) returns (r: Result<Row>)
      requires Valid()
      modifies this
      ensures Valid() && syncLogs == old(syncLogs)
      ensures r.Ok? <==> old(Owns(userId, accountId))
      ensures r.Err? ==> r.message == "Account not found" && accounts == old(accounts)
      ensures r.Ok? ==>
        && accounts == old(accounts)[accountId := SoftDeleted(old(accounts)[accountId])]
        && r.value == accounts[accountId]
      ensures accounts.Keys == old(accounts).Keys
    {
      if !Owns(userId, accountId) {
        return Err("Account not found");
      }
      var after := SoftDeleted(accounts[accountId]);
      PutAccount(accountId, after);
      r := Ok(after);
    }

    /**
      * `syncAccount`.  The account must exist; a STARTED log is inserted under
      * `newLogId`, the account is marked ACTIVE with the sync time, and the
      * log closed as SUCCESS.  `failure` names the statement inside the try
      * block the database refuses, if any (0 the account update, 1 the log
      * update), and its
      * message: then the log is closed as FAILED with that message, the
      * account marked FAILED, and the error passed on.  `now` is the clock.
      */
    method SyncAccount(userId: string, accountId: string, newLogId: string, now: int, failure: Option<(nat, string)>)
      returns (r: Result<SyncResult>)
      requires Valid() && newLogId !in syncLogs
      modifies this
      ensures Valid()
      ensures !old(Owns(userId, accountId)) ==>
        r == Err("Account not found") && accounts == old(accounts) && syncLogs == old(syncLogs)
      ensures old(Owns(userId, accountId)) && failure.None? ==>
        && r == Ok(SyncResult(true, 0, 0))
        && accounts == old(accounts)[accountId := UpdatedAccount(old(accounts)[accountId], SyncedFields(now))]
        && syncLogs == old(syncLogs)[newLogId := SucceededLog(StartedLog(newLogId, userId, accountId, now), now)]
      ensures old(Owns(userId, accountId)) && failure.Some? ==>
        var before := old(accounts)[accountId];
        && r == Err(failure.value.1)
        && accounts == old(accounts)[accountId :=
             UpdatedAccount(if failure.value.0 == 0 then before else UpdatedAccount(before, SyncedFields(now)), FAILED_FIELDS)]
        && syncLogs == old(syncLogs)[newLogId := FailedLog(StartedLog(newLogId, userId, accountId, now), now, failure.value.1)]
    {
      var existing := GetAccountById(userId, accountId);
      if existing.Err? {
        return Err(existing.message);
      }
      if failure.None? {
        SyncSucceeds(userId, accountId, newLogId, now);
        r := Ok(SyncResult(true, 0, 0));
      } else {
        SyncFails(userId, accountId, newLogId, now, failure.value.0 != 0, failure.value.1);
        r := Err(failure.value.1);
      }
    }

    /** The `try` block run to its end: the account marked ACTIVE, then the log closed as SUCCESS. */
    method SyncSucceeds(userId: string, accountId: string, logId: string, now: int)
      requires Valid() && logId !in syncLogs && Owns(userId, accountId)
      modifies this
      ensures Valid()
      ensures accounts == old(accounts)[accountId := UpdatedAccount(old(accounts)[accountId], SyncedFields(now))]
      ensures syncLogs == old(syncLogs)[logId := SucceededLog(StartedLog(logId, userId, accountId, now), now)]
    {
      ghost var logs0 := syncLogs;
      var log := StartedLog(logId, userId, accountId, now);
      SetLog(logId, log);
      MarkAccount(userId, accountId, SyncedFields(now));
      OverwriteTwice(logs0, logId, log, SucceededLog(log, now));
      SetLog(logId, SucceededLog(log, now));
    }

    /**
      * A refused statement inside the `try` block: the account update when
      * `marked` is false, the log update after it otherwise; the catch block follows.
      */
    method SyncFails(userId: string, accountId: string, logId: string, now: int, marked: bool, message: string)
      requires Valid() && logId !in syncLogs && Owns(userId, accountId)
      modifies this
      ensures Valid()
      ensures var before := old(accounts)[accountId];
        accounts == old(accounts)[accountId :=
          UpdatedAccount(if marked then UpdatedAccount(before, SyncedFields(now)) else before, FAILED_FIELDS)]
      ensures syncLogs == old(syncLogs)[logId := FailedLog(StartedLog(logId, userId, accountId, now), now, message)]
    {
      ghost var logs0 := syncLogs;
      var log := StartedLog(logId, userId, accountId, now);
      SetLog(logId, log);
      if marked {
        MarkAccount(userId, accountId, SyncedFields(now));
      }
      ghost var accounts1 := accounts;
      FailSync(userId, accountId, logId, log, now, message);
      OverwriteTwice(logs0, logId, log, FailedLog(log, now, message));
      OverwriteTwice(old(accounts), accountId, accounts1[accountId], accounts[accountId]);
    }

    /** The catch block of a sync: the log is closed as FAILED with the message, then the account is marked FAILED. */
    method FailSync(userId: string, accountId: string, logId: string, log: Row, now: int, message: string)
      requires Valid() && Owns(userId, accountId) && Col(log, "id") == Str(logId)
      modifies this
      ensures Valid()
      ensures syncLogs == old(syncLogs)[logId := FailedLog(log, now, message)]
      ensures accounts == old(accounts)[accountId := UpdatedAccount(old(accounts)[accountId], FAILED_FIELDS)]
    {
      SetLog(logId, FailedLog(log, now, message));
      MarkAccount(userId, accountId, FAILED_FIELDS);
    }

    /** Writes the account row under its id. */
    method PutAccount(accountId: string, row: Row)
      requires Valid() && Col(row, "id") == Str(accountId)
      modifies this
      ensures Valid() && syncLogs == old(syncLogs)
      ensures accounts == old(accounts)[accountId := row]
    {
      KeyedByIdPut(accounts, accountId, row);
      accounts := accounts[accountId := row];
    }

    /** Writes the log row under its id. */
    method SetLog(logId: string, log: Row)
      requires Valid() && Col(log, "id") == Str(logId)
      modifies this
      ensures Valid() && accounts == old(accounts)
      ensures syncLogs == old(syncLogs)[logId := log]
    {
      KeyedByIdPut(syncLogs, logId, log);
      syncLogs := syncLogs[logId := log];
    }

    /** One of the account updates a sync makes, on an account known to exist: it succeeds. */
    method MarkAccount(userId: string, accountId: string, data: Entries)
      requires Valid() && Owns(userId, accountId)
      requires data == FAILED_FIELDS || exists now :: data == SyncedFields(now)
      modifies this
      ensures Valid() && Owns(userId, accountId) && syncLogs == old(syncLogs)
      ensures accounts == old(accounts)[accountId := UpdatedAccount(old(accounts)[accountId], data)]
    {
      assert PickedWrites(ALLOWED_FIELDS, data) != [] by {
        if data == FAILED_FIELDS {
          FailedWrites();
        } else {
          var now :| data == SyncedFields(now);
          SyncedWrites(now);
        }
      }
      UpdateAccountKeepsOtherColumns(accounts[accountId], data, "user_id");
      var marked := UpdateAccount(userId, accountId, data);
    }
  }

  /** Writing a key twice leaves the second value. */
  lemma OverwriteTwice<K, V>(m: map<K, V>, k: K, a: V, b: V)
    ensures m[k := a][k := b] == m[k := b]
  {
  }
}
