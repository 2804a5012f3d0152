/**
 * The records the application keeps: transactions, the user profile with its two paydays and
 * recurring payments, savings goals, bank accounts, and the contents of numeric form fields.
 */
module Domain {
  import opened Wrappers

  /**
   * An expense or an income. `date` is the `DD.MM.YYYY` text; `category` is an expense's category
   * or an income's source; an empty `id` is a record that has not been given one yet.
   */
  datatype Transaction = Transaction(
    id: string,
    date: string,
    amount: real,
    category: string,
    desc: Option<string>,
    bank: Option<string>)

  /** One of the two monthly paydays; `labelText` is its label (the income's name). */
  datatype Payday = Payday(day: int, amount: real, labelText: string)

  datatype RecurringPayment = RecurringPayment(id: string, day: int, amount: real, name: string, category: string)

  datatype Profile = Profile(
    userName: string,
    salary1: Payday,
    salary2: Payday,
    recurring: seq<RecurringPayment>,
    monthlyBudget: Option<real>)

  /** The profile a new user starts with. */
  const DefaultProfile := Profile("Kullanıcı", Payday(1, 0.0, "Income 1"), Payday(15, 0.0, "Income 2"), [], None)

  datatype Goal = Goal(id: int, title: string, target: real, current: real, isMain: bool)

  /** A bank account or card; `kind` is the account type ("Kredi Kartı" for a credit card). */
  datatype Account = Account(
    bank: string,
    kind: string,
    debt: real,
    totalLimit: real,
    balance: Option<real>,
    colorClass: Option<string>)

  /** The text of a numeric input field: empty, or a number the browser accepted. */
  datatype NumText = Blank | Numeral(value: real) {
    /** `parseFloat(text) || 0`: an empty field (NaN) and zero both give 0. */
    function OrZero(): real {
      match this
      case Blank => 0.0
      case Numeral(v) => v
    }
  }
}
