/** The records of types.ts. Data that reaches the app from the language
    model or from an imported backup is never validated, so a type tag or an
    action can hold a value outside the enumerations; the `Unrecognised` and
    `OtherAction` constructors carry such values. */
module Types {
  import opened Seqs

  datatype TxType =
    | Income        // 'INCOME'
    | Expense       // 'EXPENSE'
    | DebtOwedToMe  // 'DEBT_IN'
    | DebtOwedByMe  // 'DEBT_OUT'
    | CreditSpend   // 'CREDIT'
    | Saving        // 'SAVING'
    | Unrecognised(tag: string)

  /** Expense-like types: the ones the chart, the budgets and the advice count as spending. */
  predicate IsSpending(k: TxType)
  {
    k == Expense || k == CreditSpend
  }

  /** What the code reads from a `Date`: its time value (milliseconds since
      the epoch) and the local calendar month (0 to 11) and year. */
  datatype Stamp = Stamp(time: int, month: int, year: int)

  predicate SameMonth(a: Stamp, b: Stamp)
  {
    a.month == b.month && a.year == b.year
  }

  /** A stored transaction. Optional fields are `None` when absent or
      undefined; `isPaid` is read only for its truth value, absent being false. */
  datatype Transaction = Transaction(
    id: Option<string>,
    amount: real,
    description: string,
    category: string,
    txType: TxType,
    date: Stamp,
    isPaid: bool,
    reminderDate: Option<string>,
    accountId: Option<string>,
    goalId: Option<string>)

  function Amount(t: Transaction): real
  {
    t.amount
  }

  datatype AccountKind = CashAccount | BankAccount | WalletAccount

  datatype PaymentAccount = PaymentAccount(id: string, name: string, kind: AccountKind, isDefault: bool)

  datatype Budget = Budget(category: string, limit: real)

  datatype SavingGoal = SavingGoal(id: string, name: string, targetAmount: real, currentAmount: real, color: string, icon: Option<string>)

  /** A key of an object literal that is spread over defaults: missing, present
      with the value `undefined`, or present with a value. */
  datatype Key<T> = Absent | Undefined | Given(value: T)

  /** The data handed to `addTransaction`: the parsed amount, category,
      description and type, plus the optional keys that `...data` spreads over
      the defaults of the new record. */
  datatype TxInput = TxInput(
    amount: real,
    category: string,
    description: string,
    txType: TxType,
    id: Option<string>,
    date: Option<Stamp>,
    isPaid: Option<bool>,
    reminderDate: Option<string>,
    accountId: Key<string>,
    goalId: Option<string>)

  datatype Action = TransactionAction | BudgetAction | GoalAction | UnknownAction | OtherAction(tag: string)

  /** The reply of the language model, `AICommandResult`. Its `data` is typed
      `any` and the reply is only cast, so `data` may be missing or null:
      `None`. */
  datatype CommandResult = CommandResult(action: Action, data: Option<TxInput>, message: string)

  /** The replies on which `handleAICommand`, the app's `onCommand`, throws: it
      reads `result.data.description` first, which is a TypeError when `data`
      is missing or null. */
  predicate Unhandled(c: CommandResult)
  {
    c.data.None?
  }

  datatype Features = Features(budgets: bool, goals: bool, debtsIn: bool, debtsOut: bool)

  datatype FeatureKey = BudgetsFeature | GoalsFeature | DebtsInFeature | DebtsOutFeature
}
