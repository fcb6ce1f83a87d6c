/**
 * The records the dashboard receives from the remote store.
 */
module Records {
  import opened Js

  /**
   * A transaction as fetched. `category` is `None` when the field is
   * `undefined` or `null`; `amount` is the field after `Number(...)`.
   */
  datatype Transaction = Transaction(
    date: string,
    category: Option<string>,
    entryType: string,
    mode: string,
    amount: Number)

  /** The balances and totals the server computes for one scope. */
  datatype Summary = Summary(cashBalance: real, bankBalance: real, totalIncome: real, totalExpense: real)
}
