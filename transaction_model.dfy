/**
  * The backend's transaction enums: the categories the SMS parser and the
  * transaction service store, the DEBIT/CREDIT direction of the database, the
  * INCOME/EXPENSE type of the API, and payment modes.
  */
module TransactionModel {

  /** The backend category enum; the income categories come first. */
  datatype Category =
    | Salary | Freelance | Investment | Business | Gift | OtherIncome
    | Food | Transportation | Shopping | Entertainment | Bills | Healthcare | Education
    | Travel | Groceries | Rent | Emi | Insurance | InvestmentExpense | OtherExpense
  {
    function Name(): string {
      match this
      case Salary => "SALARY"
      case Freelance => "FREELANCE"
      case Investment => "INVESTMENT"
      case Business => "BUSINESS"
      case Gift => "GIFT"
      case OtherIncome => "OTHER_INCOME"
      case Food => "FOOD"
      case Transportation => "TRANSPORTATION"
      case Shopping => "SHOPPING"
      case Entertainment => "ENTERTAINMENT"
      case Bills => "BILLS"
      case Healthcare => "HEALTHCARE"
      case Education => "EDUCATION"
      case Travel => "TRAVEL"
      case Groceries => "GROCERIES"
      case Rent => "RENT"
      case Emi => "EMI"
      case Insurance => "INSURANCE"
      case InvestmentExpense => "INVESTMENT_EXPENSE"
      case OtherExpense => "OTHER_EXPENSE"
    }

    predicate IsIncome() {
      this in {Salary, Freelance, Investment, Business, Gift, OtherIncome}
    }
  }

  /** The direction of a stored transaction (the database's `type` column). */
  datatype Direction = Debit | Credit {
    function Name(): string {
      match this
      case Debit => "DEBIT"
      case Credit => "CREDIT"
    }
  }

  /** The transaction type of the API. */
  datatype ApiType = Income | Expense {
    function Name(): string {
      match this
      case Income => "INCOME"
      case Expense => "EXPENSE"
    }
  }

  datatype PaymentMode = Cash | Upi | Card | NetBanking | Wallet | OtherMode {
    function Name(): string {
      match this
      case Cash => "CASH"
      case Upi => "UPI"
      case Card => "CARD"
      case NetBanking => "NET_BANKING"
      case Wallet => "WALLET"
      case OtherMode => "OTHER"
    }
  }
}
