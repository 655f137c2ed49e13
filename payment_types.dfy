/** The records of the finance tracker: transactions (payments), the categories
    they are filed under, and the summary figures shown on the dashboard. */
module PaymentTypes {

  datatype Option<T> = None | Some(value: T)

  /** The `'income' | 'expense'` discriminator shared by payments and categories. */
  datatype Kind = Income | Expense

  /** The only parts of a payment's timestamp the core looks at: the calendar
      year and the month, numbered from 0 (January) to 11 as in `Date.getMonth`. */
  datatype Date = Date(year: int, month: int)

  /** One recorded transaction. `amount` is an exact decimal; `category` holds a
      category's name, not its id. */
  datatype Payment = Payment(
    id: string,
    amount: real,
    description: string,
    category: string,
    date: Date,
    kind: Kind,
    tags: Option<seq<string>>)

  /** A user-defined label; `icon` and `color` are display metadata. */
  datatype Category = Category(
    id: string,
    name: string,
    icon: string,
    color: string,
    kind: Kind)

  /** The six figures computed from the payment list. */
  datatype PaymentStats = PaymentStats(
    totalIncome: real,
    totalExpenses: real,
    balance: real,
    monthlyIncome: real,
    monthlyExpenses: real,
    monthlyBalance: real)
}
