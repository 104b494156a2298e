/**
  * The shared budget arithmetic: how much of each allocation has been spent,
  * what remains, the percentage used, and when an alert is due.
  *
  * Amounts are exact reals.  The budget status needs a positive allocated
  * amount, as the allocation validator requires on creation, for its
  * percentage to be a number; the alert test is defined for any amount.
  */
module BudgetCalculations {
  import opened CategoryMapping

  /** One category's share of a month's budget. */
  datatype BudgetAllocation = BudgetAllocation(
    category: BudgetCategory,
    allocatedAmount: real,
    spentAmount: real,
    rolloverPercentage: real,
    alertThreshold: real)

  datatype Budget = Budget(
    id: string,
    userId: string,
    month: string,
    totalAmount: real,
    allocations: seq<BudgetAllocation>,
    rolloverEnabled: bool)

  /** A transaction as the calculation sees it: a category value and an amount. */
  datatype Spending = Spending(category: string, amount: real)

  datatype CategoryStatus = CategoryStatus(
    category: BudgetCategory,
    allocatedAmount: real,
    spent: real,
    remaining: real,
    percentageUsed: real,
    isOverBudget: bool)

  predicate PositiveAllocations(allocations: seq<BudgetAllocation>) {
    forall i :: 0 <= i < |allocations| ==> allocations[i].allocatedAmount > 0.0
  }

  /** The transactions of one category, in their order. */
  function OfCategory(txs: seq<Spending>, category: string): (r: seq<Spending>)
    ensures |r| <= |txs|
    ensures forall i :: 0 <= i < |r| ==> r[i].category == category
    ensures forall t :: t in r <==> t in txs && t.category == category
  {
    if txs == [] then []
    else
      var rest := OfCategory(txs[..|txs| - 1], category);
      assert txs == txs[..|txs| - 1] + [txs[|txs| - 1]];
      if txs[|txs| - 1].category == category then rest + [txs[|txs| - 1]] else rest
  }

  /** The filter keeps every transaction of the category as often as it occurs, and no other. */
  lemma {:induction false} OfCategoryMultiset(txs: seq<Spending>, category: string)
    ensures forall t :: multiset(OfCategory(txs, category))[t] == if t.category == category then multiset(txs)[t] else 0
    decreases |txs|
  {
    if txs != [] {
      var n := |txs| - 1;
      OfCategoryMultiset(txs[..n], category);
      assert txs == txs[..n] + [txs[n]];
    }
  }

  /** The amounts summed from the left, as `reduce` with a start of 0 does. */
  function Total(txs: seq<Spending>): real {
    if txs == [] then 0.0 else Total(txs[..|txs| - 1]) + txs[|txs| - 1].amount
  }

  /** What has been spent in `category`. */
  function Spent(txs: seq<Spending>, category: string): real {
    Total(OfCategory(txs, category))
  }

  lemma {:induction false} OfCategoryAppend(a: seq<Spending>, b: seq<Spending>, category: string)
    ensures OfCategory(a + b, category) == OfCategory(a, category) + OfCategory(b, category)
    decreases |b|
  {
    if b == [] {
      assert a + b == a;
    } else {
      assert (a + b)[..|a + b| - 1] == a + b[..|b| - 1];
      OfCategoryAppend(a, b[..|b| - 1], category);
    }
  }

  lemma {:induction false} TotalAppend(a: seq<Spending>, b: seq<Spending>)
    ensures Total(a + b) == Total(a) + Total(b)
    decreases |b|
  {
    if b == [] {
      assert a + b == a;
    } else {
      assert (a + b)[..|a + b| - 1] == a + b[..|b| - 1];
      TotalAppend(a, b[..|b| - 1]);
    }
  }

  /** Spending splits over a concatenation of transaction lists. */
  lemma SpentAppend(a: seq<Spending>, b: seq<Spending>, category: string)
    ensures Spent(a + b, category) == Spent(a, category) + Spent(b, category)
  {
    OfCategoryAppend(a, b, category);
    TotalAppend(OfCategory(a, category), OfCategory(b, category));
  }

  /** A transaction of another category does not change what was spent. */
  lemma SpentIgnoresOtherCategories(txs: seq<Spending>, t: Spending, category: string)
    requires t.category != category
    ensures Spent(txs + [t], category) == Spent(txs, category)
  {
    SpentAppend(txs, [t], category);
    assert OfCategory([t], category) == [];
  }

  /** A transaction of the category adds exactly its amount. */
  lemma SpentCountsOwnCategory(txs: seq<Spending>, t: Spending, category: string)
    requires t.category == category
    ensures Spent(txs + [t], category) == Spent(txs, category) + t.amount
  {
    SpentAppend(txs, [t], category);
    assert OfCategory([t], category) == [t];
    assert Total([t]) == Total([]) + t.amount;
  }

  lemma {:induction false} TotalNonNegative(txs: seq<Spending>)
    requires forall i :: 0 <= i < |txs| ==> txs[i].amount >= 0.0
    ensures Total(txs) >= 0.0
    decreases |txs|
  {
    if txs != [] {
      TotalNonNegative(txs[..|txs| - 1]);
    }
  }

  /** With no negative amounts, nothing is ever spent below zero. */
  lemma SpentNonNegative(txs: seq<Spending>, category: string)
    requires forall i :: 0 <= i < |txs| ==> txs[i].amount >= 0.0
    ensures Spent(txs, category) >= 0.0
  {
    var r := OfCategory(txs, category);
    forall i | 0 <= i < |r| ensures r[i].amount >= 0.0 {
      assert r[i] in txs;
    }
    TotalNonNegative(r);
  }

  /** The status of one allocation against the transactions. */
  function AllocationStatus(allocation: BudgetAllocation, txs: seq<Spending>): (s: CategoryStatus)
    requires allocation.allocatedAmount > 0.0
    ensures s.category == allocation.category && s.allocatedAmount == allocation.allocatedAmount
    ensures s.spent == Spent(txs, allocation.category.Name())
    ensures s.remaining + s.spent == s.allocatedAmount
    ensures s.percentageUsed * s.allocatedAmount == s.spent * 100.0
    ensures s.isOverBudget <==> s.remaining < 0.0
  {
    var spent := Spent(txs, allocation.category.Name());
    CategoryStatus(
      allocation.category,
      allocation.allocatedAmount,
      spent,
      allocation.allocatedAmount - spent,
      (spent / allocation.allocatedAmount) * 100.0,
      spent > allocation.allocatedAmount)
  }

  /** `calculateBudgetStatus`: one status per allocation, in the allocations' order. */
  function CalculateBudgetStatus(budget: Budget, txs: seq<Spending>): (r: seq<CategoryStatus>)
    requires PositiveAllocations(budget.allocations)
    ensures |r| == |budget.allocations|
    ensures forall i :: 0 <= i < |r| ==>
      var a := budget.allocations[i];
      && r[i].category == a.category
      && r[i].allocatedAmount == a.allocatedAmount
      && r[i].spent == Spent(txs, a.category.Name())
      && r[i].remaining == a.allocatedAmount - r[i].spent
      && r[i].percentageUsed * a.allocatedAmount == r[i].spent * 100.0
      && (r[i].isOverBudget <==> r[i].spent > a.allocatedAmount)
  {
    seq(|budget.allocations|, i requires 0 <= i < |budget.allocations| => AllocationStatus(budget.allocations[i], txs))
  }

  /** Spending exactly the allocation is not over budget. */
  lemma ExactSpendIsNotOver(allocation: BudgetAllocation, txs: seq<Spending>)
    requires allocation.allocatedAmount > 0.0
    requires Spent(txs, allocation.category.Name()) == allocation.allocatedAmount
    ensures !AllocationStatus(allocation, txs).isOverBudget
    ensures AllocationStatus(allocation, txs).percentageUsed == 100.0
  {
    var s := AllocationStatus(allocation, txs);
    assert (s.percentageUsed - 100.0) * allocation.allocatedAmount == 0.0;
  }

  /**
    * `shouldTriggerAlert`: the percentage used has reached the threshold.  An
    * allocation of 0 makes the percentage Infinity when something was spent,
    * which reaches any threshold, and NaN or -Infinity otherwise, which reach
    * none.
    */
  function ShouldTriggerAlert(allocation: BudgetAllocation, spent: real): (alert: bool)
    ensures allocation.allocatedAmount > 0.0 ==>
      (alert <==> spent * 100.0 >= allocation.alertThreshold * allocation.allocatedAmount)
    ensures allocation.allocatedAmount < 0.0 ==>
      (alert <==> spent * 100.0 <= allocation.alertThreshold * allocation.allocatedAmount)
    ensures allocation.allocatedAmount == 0.0 ==> (alert <==> spent > 0.0)
  {
    if allocation.allocatedAmount == 0.0 then spent > 0.0
    else (spent / allocation.allocatedAmount) * 100.0 >= allocation.alertThreshold
  }

  /** Spending more never withdraws an alert. */
  lemma AlertIsMonotone(allocation: BudgetAllocation, spent: real, more: real)
    requires allocation.allocatedAmount > 0.0
    requires spent <= more
    ensures ShouldTriggerAlert(allocation, spent) ==> ShouldTriggerAlert(allocation, more)
  {
  }

  /** With a threshold of at most 100%, an allocation that is over budget has triggered its alert. */
  lemma OverBudgetAlerts(allocation: BudgetAllocation, txs: seq<Spending>)
    requires allocation.allocatedAmount > 0.0 && allocation.alertThreshold <= 100.0
    requires AllocationStatus(allocation, txs).isOverBudget
    ensures ShouldTriggerAlert(allocation, AllocationStatus(allocation, txs).spent)
  {
    var s := AllocationStatus(allocation, txs);
    assert s.spent * 100.0 >= allocation.allocatedAmount * 100.0;
    assert allocation.alertThreshold * allocation.allocatedAmount <= 100.0 * allocation.allocatedAmount;
  }

  /** The alert fires at the threshold itself: the comparison is inclusive. */
  lemma AlertAtThreshold(allocation: BudgetAllocation)
    requires allocation.allocatedAmount > 0.0
    ensures ShouldTriggerAlert(allocation, allocation.alertThreshold * allocation.allocatedAmount / 100.0)
  {
  }
}
