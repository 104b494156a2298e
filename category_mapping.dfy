/**
  * The shared package's category enums and the constant record that sends every
  * transaction category to a budget category.
  */
module CategoryMapping {
  import opened Wrappers
  import TransactionModel

  /** The shared package's transaction categories, grouped as the mapping groups them. */
  datatype TransactionCategory =
    | Rent | Utilities | Groceries | Healthcare | Insurance
    | Dining | Shopping | Transportation | Travel
    | Entertainment | Hobbies | Subscriptions | Education
    | Investment | Salary | Transfer | Other
  {
    function Name(): string {
      match this
      case Rent => "RENT"
      case Utilities => "UTILITIES"
      case Groceries => "GROCERIES"
      case Healthcare => "HEALTHCARE"
      case Insurance => "INSURANCE"
      case Dining => "DINING"
      case Shopping => "SHOPPING"
      case Transportation => "TRANSPORTATION"
      case Travel => "TRAVEL"
      case Entertainment => "ENTERTAINMENT"
      case Hobbies => "HOBBIES"
      case Subscriptions => "SUBSCRIPTIONS"
      case Education => "EDUCATION"
      case Investment => "INVESTMENT"
      case Salary => "SALARY"
      case Transfer => "TRANSFER"
      case Other => "OTHER"
    }
  }

  datatype BudgetCategory = Essential | Flexible | Discretionary {
    function Name(): string {
      match this
      case Essential => "ESSENTIAL"
      case Flexible => "FLEXIBLE"
      case Discretionary => "DISCRETIONARY"
    }
  }

  /** The category whose enum value is `name`, if there is one. */
  function TransactionCategoryNamed(name: string): (r: Option<TransactionCategory>)
    ensures r.Some? ==> r.value.Name() == name
    ensures r.None? ==> forall c: TransactionCategory :: c.Name() != name
  {
    if name == "RENT" then Some(Rent)
    else if name == "UTILITIES" then Some(Utilities)
    else if name == "GROCERIES" then Some(Groceries)
    else if name == "HEALTHCARE" then Some(Healthcare)
    else if name == "INSURANCE" then Some(Insurance)
    else if name == "DINING" then Some(Dining)
    else if name == "SHOPPING" then Some(Shopping)
    else if name == "TRANSPORTATION" then Some(Transportation)
    else if name == "TRAVEL" then Some(Travel)
    else if name == "ENTERTAINMENT" then Some(Entertainment)
    else if name == "HOBBIES" then Some(Hobbies)
    else if name == "SUBSCRIPTIONS" then Some(Subscriptions)
    else if name == "EDUCATION" then Some(Education)
    else if name == "INVESTMENT" then Some(Investment)
    else if name == "SALARY" then Some(Salary)
    else if name == "TRANSFER" then Some(Transfer)
    else if name == "OTHER" then Some(Other)
    else None
  }

  /** Enum values are distinct, so a category is found again from its value. */
  lemma TransactionCategoryNameRoundTrip(c: TransactionCategory)
    ensures TransactionCategoryNamed(c.Name()) == Some(c)
  {
  }

  /** `TransactionToBudgetCategory`: a total record over the seventeen categories. */
  function ToBudgetCategory(c: TransactionCategory): (b: BudgetCategory)
    ensures b == Essential <==> c in {Rent, Utilities, Groceries, Healthcare, Insurance}
    ensures b == Discretionary <==> c in {Entertainment, Hobbies, Subscriptions, Education}
    ensures b == Flexible <==> c in {Dining, Shopping, Transportation, Travel, Investment, Salary, Transfer, Other}
  {
    match c
    case Rent | Utilities | Groceries | Healthcare | Insurance => Essential
    case Dining | Shopping | Transportation | Travel => Flexible
    case Entertainment | Hobbies | Subscriptions | Education => Discretionary
    case Investment | Salary | Transfer | Other => Flexible
  }

  /** The budget category of a stored category value, looked up by its enum value. */
  function BudgetCategoryOfName(name: string): (r: Option<BudgetCategory>)
    ensures r.Some? <==> exists c: TransactionCategory :: c.Name() == name
  {
    match TransactionCategoryNamed(name)
    case Some(c) => Some(ToBudgetCategory(c))
    case None => None
  }

  /**
    * Five of the categories the SMS parser assigns (backend enum) are found
    * under the same value in the shared enum, and so have a budget category.
    */
  lemma ParserCategoriesInBudgetMap()
    ensures BudgetCategoryOfName(TransactionModel.Category.Groceries.Name()) == Some(Essential)
    ensures BudgetCategoryOfName(TransactionModel.Category.Healthcare.Name()) == Some(Essential)
    ensures BudgetCategoryOfName(TransactionModel.Category.Transportation.Name()) == Some(Flexible)
    ensures BudgetCategoryOfName(TransactionModel.Category.Shopping.Name()) == Some(Flexible)
    ensures BudgetCategoryOfName(TransactionModel.Category.Entertainment.Name()) == Some(Discretionary)
  {
    assert TransactionModel.Category.Groceries.Name() == Groceries.Name();
    assert TransactionModel.Category.Healthcare.Name() == Healthcare.Name();
    assert TransactionModel.Category.Transportation.Name() == Transportation.Name();
    assert TransactionModel.Category.Shopping.Name() == Shopping.Name();
    assert TransactionModel.Category.Entertainment.Name() == Entertainment.Name();
    TransactionCategoryNameRoundTrip(Groceries);
    TransactionCategoryNameRoundTrip(Healthcare);
    TransactionCategoryNameRoundTrip(Transportation);
    TransactionCategoryNameRoundTrip(Shopping);
    TransactionCategoryNameRoundTrip(Entertainment);
  }

  /**
    * FOOD and BILLS, which the SMS parser also assigns, are not values of the
    * shared enum, so the mapping has no budget category for them.
    */
  lemma ParserCategoriesMissingFromBudgetMap()
    ensures BudgetCategoryOfName(TransactionModel.Category.Food.Name()).None?
    ensures BudgetCategoryOfName(TransactionModel.Category.Bills.Name()).None?
  {
  }
}
