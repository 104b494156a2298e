/**
  * The budget schemas: an allocation and a monthly budget, with the defaults
  * Zod fills in.
  */
module BudgetValidators {
  import opened Wrappers
  import opened JsValues
  import opened Text
  import opened Validation
  import opened CategoryMapping
  import BudgetCalculations

  /** An allocation after validation, its defaults filled in. */
  datatype AllocationOut = AllocationOut(
    category: BudgetCategory,
    allocatedAmount: real,
    rolloverPercentage: real,
    alertThreshold: real)

  /** `z.nativeEnum(BudgetCategory)`. */
  function BudgetCategoryNamed(name: string): (r: Option<BudgetCategory>)
    ensures r.Some? ==> r.value.Name() == name
    ensures r.None? ==> forall b: BudgetCategory :: b.Name() != name
  {
    if name == "ESSENTIAL" then Some(Essential)
    else if name == "FLEXIBLE" then Some(Flexible)
    else if name == "DISCRETIONARY" then Some(Discretionary)
    else None
  }

  /**
    * `BudgetAllocationSchema`: a category, a positive amount, and a rollover
    * percentage and an alert threshold in [0, 100] that default to 0 and 85.
    */
  function ParseAllocation(v: Value): Option<AllocationOut> {
    if !v.Obj? then None
    else
      var category := Get(v.fields, "category");
      var amount := Get(v.fields, "allocatedAmount");
      var rollover := Default(Get(v.fields, "rolloverPercentage"), Num(0.0));
      var threshold := Default(Get(v.fields, "alertThreshold"), Num(85.0));
      if && category.Str? && BudgetCategoryNamed(category.s).Some?
         && Positive(amount)
         && NumberBetween(rollover, 0.0, 100.0)
         && NumberBetween(threshold, 0.0, 100.0)
      then Some(AllocationOut(BudgetCategoryNamed(category.s).value, amount.r, rollover.r, threshold.r))
      else None
  }

  /** An accepted allocation: its amount is positive and both percentages lie in [0, 100]; absent ones took their defaults. */
  lemma AllocationAccepted(v: Value)
    requires ParseAllocation(v).Some?
    ensures var a := ParseAllocation(v).value;
      && a.allocatedAmount > 0.0
      && 0.0 <= a.rolloverPercentage <= 100.0
      && 0.0 <= a.alertThreshold <= 100.0
      && a.category.Name() == Get(v.fields, "category").s
      && (Get(v.fields, "rolloverPercentage") == Undefined ==> a.rolloverPercentage == 0.0)
      && (Get(v.fields, "rolloverPercentage") != Undefined ==> Num(a.rolloverPercentage) == Get(v.fields, "rolloverPercentage"))
      && (Get(v.fields, "alertThreshold") == Undefined ==> a.alertThreshold == 85.0)
      && (Get(v.fields, "alertThreshold") != Undefined ==> Num(a.alertThreshold) == Get(v.fields, "alertThreshold"))
  {
  }

  /** Every element of the array, validated in order; `None` as soon as one fails. */
  function ParseAllocations(items: seq<Value>): (r: Option<seq<AllocationOut>>)
    ensures r.Some? <==> forall i :: 0 <= i < |items| ==> ParseAllocation(items[i]).Some?
    ensures r.Some? ==> |r.value| == |items| && forall i :: 0 <= i < |items| ==> Some(r.value[i]) == ParseAllocation(items[i])
  {
    if items == [] then Some([])
    else
      var front := ParseAllocations(items[..|items| - 1]);
      var last := ParseAllocation(items[|items| - 1]);
      assert forall i :: 0 <= i < |items| - 1 ==> items[..|items| - 1][i] == items[i];
      if front.Some? && last.Some? then Some(front.value + [last.value]) else None
  }

  /** `^\d{4}-\d{2}$`: four digits, a dash, two digits. */
  predicate MonthPattern(s: string) {
    |s| == 7 && IsDigit(s[0]) && IsDigit(s[1]) && IsDigit(s[2]) && IsDigit(s[3]) && s[4] == '-' && IsDigit(s[5]) && IsDigit(s[6])
  }

  /** The month number itself is not checked. */
  lemma MonthNotRangeChecked()
    ensures MonthPattern("2024-13") && MonthPattern("2024-00")
    ensures !MonthPattern("2024-1") && !MonthPattern("24-01")
  {
  }

  datatype BudgetCreateOut = BudgetCreateOut(
    userId: string,
    month: string,
    totalAmount: real,
    allocations: seq<AllocationOut>,
    rolloverEnabled: bool)

  /**
    * `BudgetCreateSchema`: a UUID user id, a `YYYY-MM` month, a positive total,
    * at least one valid allocation, and `rolloverEnabled` defaulting to true.
    */
  function ParseBudgetCreate(lib: Library, input: map<string, Value>): Option<BudgetCreateOut> {
    var userId, month, total := Get(input, "userId"), Get(input, "month"), Get(input, "totalAmount");
    var allocations := Get(input, "allocations");
    var rollover := Default(Get(input, "rolloverEnabled"), Bool(true));
    if && Uuid(lib, userId)
       && month.Str? && MonthPattern(month.s)
       && Positive(total)
       && allocations.Arr? && |allocations.items| >= 1 && ParseAllocations(allocations.items).Some?
       && rollover.Bool?
    then Some(BudgetCreateOut(userId.s, month.s, total.r, ParseAllocations(allocations.items).value, rollover.b))
    else None
  }

  /** The allocations a validated budget hands to the budget arithmetic, nothing spent yet. */
  function ToBudgetAllocations(allocations: seq<AllocationOut>): (r: seq<BudgetCalculations.BudgetAllocation>)
    ensures |r| == |allocations|
    ensures forall i :: 0 <= i < |r| ==>
      r[i] == BudgetCalculations.BudgetAllocation(allocations[i].category, allocations[i].allocatedAmount, 0.0,
                                                 allocations[i].rolloverPercentage, allocations[i].alertThreshold)
  {
    seq(|allocations|, i requires 0 <= i < |allocations| =>
      BudgetCalculations.BudgetAllocation(allocations[i].category, allocations[i].allocatedAmount, 0.0,
                                         allocations[i].rolloverPercentage, allocations[i].alertThreshold))
  }

  /**
    * A validated budget has a positive total, at least one allocation, one
    * allocation per element of the request, and only positive allocations,
    * which is what the percentage arithmetic needs; rollover is on unless the
    * request turns it off.
    */
  lemma BudgetCreateAccepted(lib: Library, input: map<string, Value>)
    requires ParseBudgetCreate(lib, input).Some?
    ensures var b := ParseBudgetCreate(lib, input).value;
      && b.totalAmount > 0.0
      && |b.allocations| >= 1 && |b.allocations| == |Get(input, "allocations").items|
      && MonthPattern(b.month)
      && BudgetCalculations.PositiveAllocations(ToBudgetAllocations(b.allocations))
      && (Get(input, "rolloverEnabled") == Undefined ==> b.rolloverEnabled)
      && (Get(input, "rolloverEnabled") != Undefined ==> Get(input, "rolloverEnabled") == Bool(b.rolloverEnabled))
  {
    var b := ParseBudgetCreate(lib, input).value;
    var items := Get(input, "allocations").items;
    forall i | 0 <= i < |b.allocations| ensures b.allocations[i].allocatedAmount > 0.0 {
      AllocationAccepted(items[i]);
    }
  }

  /** One invalid allocation rejects the whole budget. */
  lemma OneBadAllocationRejects(lib: Library, input: map<string, Value>, i: nat)
    requires Get(input, "allocations").Arr? && i < |Get(input, "allocations").items|
    requires ParseAllocation(Get(input, "allocations").items[i]).None?
    ensures ParseBudgetCreate(lib, input).None?
  {
  }
}
