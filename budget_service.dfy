/**
  * The budget service: a month's budget with its category allocations in the
  * `budgets` and `budget_allocations` tables, allocation updates, and the
  * alert query over the spending summary.
  */
module BudgetService {
  import opened Wrappers
  import opened JsValues
  import opened Sql

  // ---------------------------------------------------------------------------
  // createBudget

  /** One requested allocation; an absent threshold or rollover share is `undefined`. */
  datatype AllocationInput = AllocationInput(
    category: string,
    allocatedAmount: real,
    alertThreshold: Value,
    rolloverPercentage: Value)

  /** The request body of `createBudget`; an absent `rolloverEnabled` is `undefined`. */
  datatype BudgetInput = BudgetInput(
    month: string,
    totalAmount: real,
    rolloverEnabled: Value,
    allocations: seq<AllocationInput>)

  /** The budget row `createBudget` inserts: rollover is on unless the request says otherwise. */
  function NewBudgetRow(id: string, userId: string, data: BudgetInput): (row: Row)
    ensures Col(row, "id") == Str(id) && Col(row, "user_id") == Str(userId)
    ensures Col(row, "month") == Str(data.month) && Col(row, "total_amount") == Num(data.totalAmount)
    ensures data.rolloverEnabled == Undefined ==> Col(row, "rollover_enabled") == Bool(true)
    ensures data.rolloverEnabled != Undefined ==> Col(row, "rollover_enabled") == data.rolloverEnabled
  {
    map[
      "id" := Str(id),
      "user_id" := Str(userId),
      "month" := Str(data.month),
      "total_amount" := Num(data.totalAmount),
      "rollover_enabled" := Default(data.rolloverEnabled, Bool(true))
    ]
  }

  /**
    * The allocation row inserted for one requested allocation: a falsy
    * threshold (absent or 0) becomes 85 and a falsy rollover share becomes 0.
    */
  function NewAllocationRow(id: string, budgetId: string, alloc: AllocationInput): Row
  {
    map[
      "id" := Str(id),
      "budget_id" := Str(budgetId),
      "category" := Str(alloc.category),
      "allocated_amount" := Num(alloc.allocatedAmount),
      "alert_threshold" := Or(alloc.alertThreshold, Num(85.0)),
      "rollover_percentage" := Or(alloc.rolloverPercentage, Num(0.0))
    ]
  }

  /**
    * The allocation row inserted for one requested allocation: a falsy
    * threshold (absent, null or 0) becomes 85 and a falsy rollover share becomes 0.
    */
  lemma NewAllocationRowDefaults(id: string, budgetId: string, alloc: AllocationInput)
    ensures var row := NewAllocationRow(id, budgetId, alloc);
      && Col(row, "id") == Str(id) && Col(row, "budget_id") == Str(budgetId)
      && Col(row, "category") == Str(alloc.category) && Col(row, "allocated_amount") == Num(alloc.allocatedAmount)
      && (!Truthy(alloc.alertThreshold) ==> Col(row, "alert_threshold") == Num(85.0))
      && (Truthy(alloc.alertThreshold) ==> Col(row, "alert_threshold") == alloc.alertThreshold)
      && (!Truthy(alloc.rolloverPercentage) ==> Col(row, "rollover_percentage") == Num(0.0))
      && (Truthy(alloc.rolloverPercentage) ==> Col(row, "rollover_percentage") == alloc.rolloverPercentage)
  {
  }

  /** The allocation rows of the first `n` requested allocations, under their ids. */
  function NewAllocationRows(budgetId: string, ids: seq<string>, allocs: seq<AllocationInput>, n: nat): map<string, Row>
    requires n <= |ids| == |allocs|
  {
    if n == 0 then map[]
    else NewAllocationRows(budgetId, ids, allocs, n - 1)[ids[n - 1] := NewAllocationRow(ids[n - 1], budgetId, allocs[n - 1])]
  }

  /** With distinct ids, each requested allocation is stored under its own id. */
  lemma {:induction false} NewAllocationRowsAt(budgetId: string, ids: seq<string>, allocs: seq<AllocationInput>, n: nat, i: nat)
    requires n <= |ids| == |allocs| && i < n
    requires forall j, k :: 0 <= j < k < |ids| ==> ids[j] != ids[k]
    ensures ids[i] in NewAllocationRows(budgetId, ids, allocs, n)
    ensures NewAllocationRows(budgetId, ids, allocs, n)[ids[i]] == NewAllocationRow(ids[i], budgetId, allocs[i])
  {
    if i < n - 1 {
      assert ids[i] != ids[n - 1];
      NewAllocationRowsAt(budgetId, ids, allocs, n - 1, i);
    }
  }

  /** Only the requested ids are keys of the new allocation rows. */
  lemma {:induction false} NewAllocationRowsKeys(budgetId: string, ids: seq<string>, allocs: seq<AllocationInput>, n: nat, id: string)
    requires n <= |ids| == |allocs|
    requires id in NewAllocationRows(budgetId, ids, allocs, n)
    ensures id in ids[..n]
  {
    if id != ids[n - 1] {
      NewAllocationRowsKeys(budgetId, ids, allocs, n - 1, id);
      assert ids[..n - 1] == ids[..n][..n - 1];
    }
  }

  /** Ids the database generates: distinct, and none already a key of `existing`. */
  predicate FreshIds(ids: seq<string>, existing: map<string, Row>) {
    && (forall i, j :: 0 <= i < j < |ids| ==> ids[i] != ids[j])
    && (forall id :: id in ids ==> id !in existing)
  }

  /**
    * With fresh, distinct ids, creating a budget keeps every allocation
    * already stored and stores each requested one under its own id.
    */
  lemma CreatedAllocationsStored(existing: map<string, Row>, budgetId: string, ids: seq<string>, allocs: seq<AllocationInput>)
    requires |ids| == |allocs| && FreshIds(ids, existing)
    ensures var after := existing + NewAllocationRows(budgetId, ids, allocs, |ids|);
      && (forall id :: id in existing ==> id in after && after[id] == existing[id])
      && (forall i :: 0 <= i < |ids| ==> ids[i] in after && after[ids[i]] == NewAllocationRow(ids[i], budgetId, allocs[i]))
  {
    var added := NewAllocationRows(budgetId, ids, allocs, |ids|);
    forall id | id in existing
      ensures id !in added
    {
      assert ids[..|ids|] == ids;
      if id in added {
        NewAllocationRowsKeys(budgetId, ids, allocs, |ids|, id);
      }
    }
    forall i | 0 <= i < |ids|
      ensures ids[i] in added && added[ids[i]] == NewAllocationRow(ids[i], budgetId, allocs[i])
    {
      NewAllocationRowsAt(budgetId, ids, allocs, |ids|, i);
    }
  }

  /** Every new allocation row sits under its own id. */
  lemma {:induction false} NewAllocationRowsKeyed(budgetId: string, ids: seq<string>, allocs: seq<AllocationInput>, n: nat)
    requires n <= |ids| == |allocs|
    ensures KeyedById(NewAllocationRows(budgetId, ids, allocs, n))
  {
    if n > 0 {
      NewAllocationRowsKeyed(budgetId, ids, allocs, n - 1);
      assert Col(NewAllocationRow(ids[n - 1], budgetId, allocs[n - 1]), "id") == Str(ids[n - 1]);
      KeyedByIdPut(NewAllocationRows(budgetId, ids, allocs, n - 1), ids[n - 1], NewAllocationRow(ids[n - 1], budgetId, allocs[n - 1]));
    }
  }

  /** Adding a key to the right operand of a map union is adding it to the union. */
  lemma MapUnionUpdate(a: map<string, Row>, b: map<string, Row>, k: string, v: Row)
    ensures (a + b)[k := v] == a + b[k := v]
  {
  }

  /**
    * The allocation inserts of `createBudget` inside its transaction: one row
    * per requested allocation, in request order, until the database refuses
    * one (`rejected` counts the budget insert as 0).
    */
  method InsertAllocations(budgetId: string, ids: seq<string>, allocs: seq<AllocationInput>, base: map<string, Row>,
                           rejected: Option<nat>, error: string)
    returns (r: Result<(map<string, Row>, seq<Row>)>)
    requires |ids| == |allocs|
    ensures r.Err? <==> rejected.Some? && 1 <= rejected.value <= |allocs|
    ensures r.Err? ==> r.message == error
    ensures r.Ok? ==>
      && r.value.0 == base + NewAllocationRows(budgetId, ids, allocs, |allocs|)
      && |r.value.1| == |allocs|
      && forall i :: 0 <= i < |allocs| ==> r.value.1[i] == NewAllocationRow(ids[i], budgetId, allocs[i])
  {
    var staged := base;
    var results: seq<Row> := [];
    for i := 0 to |allocs|
      invariant staged == base + NewAllocationRows(budgetId, ids, allocs, i)
      invariant |results| == i
      invariant forall j :: 0 <= j < i ==> results[j] == NewAllocationRow(ids[j], budgetId, allocs[j])
      invariant rejected.Some? ==> rejected.value == 0 || rejected.value > i
    {
      if rejected == Some(i + 1) {
        return Err(error);
      }
      var row := NewAllocationRow(ids[i], budgetId, allocs[i]);
      MapUnionUpdate(base, NewAllocationRows(budgetId, ids, allocs, i), ids[i], row);
      staged := staged[ids[i] := row];
      results := results + [row];
    }
    r := Ok((staged, results));
  }

  /** What `createBudget` returns: the budget row and its allocation rows in request order. */
  datatype CreatedBudget = CreatedBudget(budget: Row, allocations: seq<Row>)

  /** A budget with the ids of its allocations, as `getBudgetByMonth` joins them. */
  datatype BudgetView = BudgetView(budget: Row, allocationIds: set<string>)

  // ---------------------------------------------------------------------------
  // updateBudgetAllocation: the SET list

  /** The SET list of an allocation update: the amount and the threshold, each when not `undefined`. */
  function AllocationWrites(allocatedAmount: Value, alertThreshold: Value): (w: seq<(string, Value)>)
    ensures w == [] <==> allocatedAmount == Undefined && alertThreshold == Undefined
  {
    (if allocatedAmount != Undefined then [("allocated_amount", allocatedAmount)] else [])
    + (if alertThreshold != Undefined then [("alert_threshold", alertThreshold)] else [])
  }

  /** At most two assignments, only to the two columns, each exactly when its value is not `undefined`. */
  lemma AllocationWritesListed(allocatedAmount: Value, alertThreshold: Value)
    ensures var w := AllocationWrites(allocatedAmount, alertThreshold);
      && |w| <= 2
      && (forall i :: 0 <= i < |w| ==> w[i].0 in {"allocated_amount", "alert_threshold"})
      && (("allocated_amount", allocatedAmount) in w <==> allocatedAmount != Undefined)
      && (("alert_threshold", alertThreshold) in w <==> alertThreshold != Undefined)
  {
  }

  /** The two `if (… !== undefined)` pushes of `updateBudgetAllocation`. */
  method PushAllocationFields(allocatedAmount: Value, alertThreshold: Value)
    returns (fields: seq<Assignment>, values: seq<Value>, ghost writes: seq<(string, Value)>)
    ensures Listed(fields, values, writes)
    ensures writes == AllocationWrites(allocatedAmount, alertThreshold)
  {
    fields, values, writes := [], [], [];
    var paramCount := 0;
    if allocatedAmount != Undefined {
      PushListed(fields, values, writes, "allocated_amount", allocatedAmount);
      paramCount := paramCount + 1;
      fields := fields + [Assignment("allocated_amount", paramCount)];
      values := values + [allocatedAmount];
      writes := writes + [("allocated_amount", allocatedAmount)];
    }
    if alertThreshold != Undefined {
      PushListed(fields, values, writes, "alert_threshold", alertThreshold);
      paramCount := paramCount + 1;
      fields := fields + [Assignment("alert_threshold", paramCount)];
      values := values + [alertThreshold];
      writes := writes + [("alert_threshold", alertThreshold)];
    }
  }

  /**
    * `updateBudgetAllocation`'s statement: the amount and the threshold with
    * consecutive placeholders from `$1`, then the allocation id and the user
    * id as the last two; "No fields to update" when neither is given.
    */
  method BuildAllocationUpdate(userId: string, allocationId: string, allocatedAmount: Value, alertThreshold: Value)
    returns (r: Result<Update>)
    ensures r.Err? <==> allocatedAmount == Undefined && alertThreshold == Undefined
    ensures r.Err? ==> r.message == "No fields to update"
    ensures r.Ok? ==>
      && r.value.WellNumbered()
      && r.value.Writes() == AllocationWrites(allocatedAmount, alertThreshold)
      && r.value.IdValue() == Str(allocationId)
      && r.value.OwnerValue() == Str(userId)
  {
    var fields: seq<Assignment>, values: seq<Value>, writes := PushAllocationFields(allocatedAmount, alertThreshold);
    var paramCount := |fields|;
    if |fields| == 0 {
      return Err("No fields to update");
    }
    ListedWrites(fields, values, writes, Str(allocationId), Str(userId));
    ghost var setValues := values;
    paramCount := paramCount + 1;
    values := values + [Str(allocationId)];
    paramCount := paramCount + 1;
    values := values + [Str(userId)];
    assert values == setValues + [Str(allocationId), Str(userId)];
    r := Ok(Update(fields, values, paramCount - 1, paramCount));
  }

  /** The allocation row after an update: the SET list applied, and `updated_at` stamped with the clock. */
  function UpdatedAllocation(row: Row, allocatedAmount: Value, alertThreshold: Value, now: int): Row {
    ApplyWrites(row, AllocationWrites(allocatedAmount, alertThreshold))["updated_at" := Date(now)]
  }

  /** An allocation update writes the given amount and threshold, stamps the clock, and keeps every other column. */
  lemma UpdatedAllocationColumns(row: Row, allocatedAmount: Value, alertThreshold: Value, now: int, column: string)
    ensures var after := UpdatedAllocation(row, allocatedAmount, alertThreshold, now);
      && Col(after, "updated_at") == Date(now)
      && (allocatedAmount != Undefined ==> Col(after, "allocated_amount") == allocatedAmount)
      && (alertThreshold != Undefined ==> Col(after, "alert_threshold") == alertThreshold)
      && (column !in {"allocated_amount", "alert_threshold", "updated_at"} ==> Col(after, column) == Col(row, column))
  {
    var w := AllocationWrites(allocatedAmount, alertThreshold);
    AllocationWritesListed(allocatedAmount, alertThreshold);
    if allocatedAmount != Undefined {
      ApplyWritesAgree(row, w, "allocated_amount", allocatedAmount);
    }
    if alertThreshold != Undefined {
      ApplyWritesAgree(row, w, "alert_threshold", alertThreshold);
    }
    if column !in {"allocated_amount", "alert_threshold", "updated_at"} {
      ApplyWritesUntouched(row, w, column);
    }
  }

  // ---------------------------------------------------------------------------
  // getBudgetAlerts

  /** The alert query: its WHERE conditions and values, and the column it orders by, descending. */
  datatype AlertQuery = AlertQuery(conditions: seq<Condition>, values: seq<Value>, orderBy: string, descending: bool)

  const ALERT_STATUSES: seq<Value> := [Str("WARNING"), Str("EXCEEDED")]

  /** A summary row is an alert of the user: WARNING or EXCEEDED, and in the month when one is given. */
  predicate IsAlert(row: Row, userId: string, month: Option<string>) {
    && Col(row, "user_id") == Str(userId)
    && (Col(row, "status") == Str("WARNING") || Col(row, "status") == Str("EXCEEDED"))
    && (Truthy(OfString(month)) ==> Col(row, "month") == Str(month.value))
  }

  /** The conditions of the alert query, `$2` being the month when one is given. */
  function AlertConditions(month: Option<string>): seq<Condition> {
    [Compare("user_id", Equal, 1), OneOf("status", ALERT_STATUSES)]
    + (if Truthy(OfString(month)) then [Compare("month", Equal, 2)] else [])
  }

  function AlertValues(userId: string, month: Option<string>): seq<Value> {
    [Str(userId)] + (if Truthy(OfString(month)) then [Str(month.value)] else [])
  }

  /** The alert query numbers its placeholders from `$1`. */
  lemma AlertQueryNumbered(userId: string, month: Option<string>)
    ensures Numbered(Params(AlertConditions(month)), AlertValues(userId, month))
  {
    var base := [Compare("user_id", Equal, 1), OneOf("status", ALERT_STATUSES)];
    assert base[..1] == [base[0]] && [base[0]][..0] == [];
    assert Params(base) == [1];
    if Truthy(OfString(month)) {
      ParamsAppend(base, Compare("month", Equal, 2));
    } else {
      assert AlertConditions(month) == base;
    }
  }

  /** The alert query selects exactly the user's alerts. */
  lemma AlertQueryMeaning(engine: Engine, row: Row, userId: string, month: Option<string>)
    ensures HoldsAll(engine, row, AlertConditions(month), AlertValues(userId, month)) <==> IsAlert(row, userId, month)
  {
    var conditions, values := AlertConditions(month), AlertValues(userId, month);
    assert Holds(engine, row, conditions[0], values) <==> Col(row, "user_id") == Str(userId);
    assert Holds(engine, row, conditions[1], values) <==> Col(row, "status") in ALERT_STATUSES;
    if Truthy(OfString(month)) {
      assert Holds(engine, row, conditions[2], values) <==> Col(row, "month") == Str(month.value);
    }
  }

  /**
    * `getBudgetAlerts`: `user_id = $1` and the two alert statuses, then
    * `month = $2` only when a month is given, ordered by spent percentage
    * from highest to lowest.
    */
  method BuildAlertQuery(userId: string, month: Option<string>) returns (q: AlertQuery)
    ensures q.conditions == AlertConditions(month) && q.values == AlertValues(userId, month)
    ensures q.orderBy == "spent_percentage" && q.descending
  {
    var conditions := [Compare("user_id", Equal, 1), OneOf("status", ALERT_STATUSES)];
    var values := [Str(userId)];
    if Truthy(OfString(month)) {
      conditions := conditions + [Compare("month", Equal, 2)];
      values := values + [Str(month.value)];
    }
    q := AlertQuery(conditions, values, "spent_percentage", true);
  }

  // ---------------------------------------------------------------------------
  // The `budgets` and `budget_allocations` tables

  /** Committing a created budget keeps both tables keyed by id. */
  lemma CreatedKeyed(budgets: map<string, Row>, allocations: map<string, Row>, budgetId: string, budget: Row,
                     ids: seq<string>, allocs: seq<AllocationInput>)
    requires KeyedById(budgets) && KeyedById(allocations) && Col(budget, "id") == Str(budgetId) && |ids| == |allocs|
    ensures KeyedById(budgets[budgetId := budget])
    ensures KeyedById(allocations + NewAllocationRows(budgetId, ids, allocs, |allocs|))
  {
    KeyedByIdPut(budgets, budgetId, budget);
    NewAllocationRowsKeyed(budgetId, ids, allocs, |allocs|);
    KeyedByIdUnion(allocations, NewAllocationRows(budgetId, ids, allocs, |allocs|));
  }

  class BudgetStore {
    var budgets: map<string, Row>
    var allocations: map<string, Row>

    /** Every row sits under its own id. */
    predicate Valid()
      reads this
    {
      KeyedById(budgets) && KeyedById(allocations)
    }

    constructor()
      ensures budgets == map[] && allocations == map[] && Valid()
    {
      budgets := map[];
      allocations := map[];
    }

    /** `WHERE user_id = $1 AND month = $2`. */
    predicate IsBudgetFor(id: string, userId: string, month: string)
      reads this
    {
      id in budgets && Col(budgets[id], "user_id") == Str(userId) && Col(budgets[id], "month") == Str(month)
    }

    /** The ids of a budget's allocations: `ba.budget_id = b.id`. */
    function AllocationsOf(budgetId: string): (ids: set<string>)
      reads this
      ensures forall a :: a in ids <==> a in allocations && Col(allocations[a], "budget_id") == Str(budgetId)
    {
      set a | a in allocations && Col(allocations[a], "budget_id") == Str(budgetId)
    }

    /**
      * `createBudget`, all inside one transaction: the budget row, then one
      * allocation row per requested allocation.  `budgetId` and
      * `allocationIds` are the ids the database generates; `rejected` names the
      * statement the database refuses, if any (0 the budget, k the k-th
      * allocation), and `error` its message.  On a refusal nothing is written
      * and the error is passed on.
      */
    method CreateBudget(userId: string, data: BudgetInput, budgetId: string, allocationIds: seq<string>,
                        rejected: Option<nat>, error: string)
      returns (r: Result<CreatedBudget>)
      requires budgetId !in budgets && |allocationIds| == |data.allocations|
      requires FreshIds(allocationIds, allocations)
      requires Valid()
      modifies this
      ensures Valid()
      ensures r.Err? <==> rejected.Some? && rejected.value <= |data.allocations|
      ensures r.Err? ==> r.message == error && budgets == old(budgets) && allocations == old(allocations)
      ensures r.Ok? ==>
        && budgets == old(budgets)[budgetId := NewBudgetRow(budgetId, userId, data)]
        && allocations == old(allocations) + NewAllocationRows(budgetId, allocationIds, data.allocations, |allocationIds|)
        && r.value.budget == NewBudgetRow(budgetId, userId, data)
        && |r.value.allocations| == |data.allocations|
        && forall i :: 0 <= i < |data.allocations| ==>
             r.value.allocations[i] == NewAllocationRow(allocationIds[i], budgetId, data.allocations[i])
    {
      // BEGIN: the statements write to a working copy
      if rejected == Some(0) {
        return Err(error);
      }
      var budget := NewBudgetRow(budgetId, userId, data);
      var stagedBudgets := budgets[budgetId := budget];
      var staged := InsertAllocations(budgetId, allocationIds, data.allocations, allocations, rejected, error);
      if staged.Err? {
        // ROLLBACK: the working copy is dropped
        return Err(staged.message);
      }
      var (stagedAllocations, results) := staged.value;
      CreatedKeyed(budgets, allocations, budgetId, budget, allocationIds, data.allocations);
      // COMMIT
      budgets, allocations := stagedBudgets, stagedAllocations;
      r := Ok(CreatedBudget(budget, results));
    }

    /**
      * `getBudgetByMonth`: the user's budget for the month with its
      * allocations, or "Budget not found for this month".
      */
    method GetBudgetByMonth(userId: string, month: string) returns (r: Result<BudgetView>)
      ensures r.Err? <==> BudgetsFor(userId, month) == {}
      ensures r.Err? ==> r.message == "Budget not found for this month"
      ensures r.Ok? ==> exists id :: IsBudgetFor(id, userId, month) && r.value == BudgetView(budgets[id], AllocationsOf(id))
    {
      if id :| id in budgets && IsBudgetFor(id, userId, month) {
        r := Ok(BudgetView(budgets[id], AllocationsOf(id)));
      } else {
        r := Err("Budget not found for this month");
      }
    }

    /**
      * `updateBudgetAllocation`: "No fields to update" before anything is
      * read; otherwise the allocation must exist and belong to one of the
      * user's budgets, or "Budget allocation not found".  `now` is the
      * database clock stamped into `updated_at`.
      */
    method UpdateBudgetAllocation(userId: string, allocationId: string, allocatedAmount: Value, alertThreshold: Value, now: int)
      returns (r: Result<Row>)
      requires Valid()
      modifies this
      ensures Valid() && budgets == old(budgets)
      ensures allocatedAmount == Undefined && alertThreshold == Undefined ==>
        r == Err("No fields to update") && allocations == old(allocations)
      ensures (allocatedAmount != Undefined || alertThreshold != Undefined) && !old(OwnsAllocation(userId, allocationId)) ==>
        r == Err("Budget allocation not found") && allocations == old(allocations)
      ensures (allocatedAmount != Undefined || alertThreshold != Undefined) && old(OwnsAllocation(userId, allocationId)) ==>
        var after := UpdatedAllocation(old(allocations)[allocationId], allocatedAmount, alertThreshold, now);
        r == Ok(after) && allocations == old(allocations)[allocationId := after]
    {
      var u := BuildAllocationUpdate(userId, allocationId, allocatedAmount, alertThreshold);
      if u.Err? {
        return Err(u.message);
      }
      if !OwnsAllocation(userId, allocationId) {
        return Err("Budget allocation not found");
      }
      var after := ApplyWrites(allocations[allocationId], u.value.Writes())["updated_at" := Date(now)];
      UpdatedAllocationColumns(allocations[allocationId], allocatedAmount, alertThreshold, now, "id");
      PutAllocation(allocationId, after);
      r := Ok(after);
    }

    /** Writes one allocation row under its id. */
    method PutAllocation(id: string, row: Row)
      requires Valid() && Col(row, "id") == Str(id)
      modifies this
      ensures Valid() && budgets == old(budgets) && allocations == old(allocations)[id := row]
    {
      KeyedByIdPut(allocations, id, row);
      allocations := allocations[id := row];
    }

    /** `WHERE ba.id = $n-1 AND ba.budget_id = b.id AND b.user_id = $n`. */
    predicate OwnsAllocation(userId: string, allocationId: string)
      reads this
    {
      && allocationId in allocations
      && exists b :: b in budgets && Col(allocations[allocationId], "budget_id") == Str(b) && Col(budgets[b], "user_id") == Str(userId)
    }

    /** The ids of the user's budgets for the month. */
    function BudgetsFor(userId: string, month: string): (ids: set<string>)
      reads this
      ensures forall id :: id in ids <==> IsBudgetFor(id, userId, month)
    {
      set id | id in budgets && IsBudgetFor(id, userId, month)
    }

    /**
      * `deleteBudget`: removes every budget of the user for the month and
      * returns one of them, or "Budget not found" when there is none.
      */
    method DeleteBudget(userId: string, month: string) returns (r: Result<Row>)
      requires Valid()
      modifies this
      ensures Valid() && allocations == old(allocations)
      ensures r.Err? <==> old(BudgetsFor(userId, month)) == {}
      ensures r.Err? ==> r.message == "Budget not found" && budgets == old(budgets)
      ensures r.Ok? ==> exists id :: id in old(BudgetsFor(userId, month)) && r.value == old(budgets)[id]
      ensures budgets == old(budgets) - old(BudgetsFor(userId, month))
    {
      var doomed := BudgetsFor(userId, month);
      if id :| id in doomed {
        r := Ok(budgets[id]);
      } else {
        r := Err("Budget not found");
      }
      budgets := budgets - doomed;
    }
  }
}
