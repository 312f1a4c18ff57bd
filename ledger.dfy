/** The values App.tsx derives from its state on every render: account
    balances, the month view, budget progress, goal progress, the category
    list and the due debts. All of them are pure functions of a snapshot of
    the state; "today" and the viewed month are parameters. */
module Ledger {
  import opened Seqs
  import opened Sorting
  import opened Text
  import opened Types
  import Calendar

  /** The id of the built-in cash account, and the account of a transaction without one. */
  const CashId: string := "cash"

  // ---------------------------------------------------------------------
  // Balances

  /** `t.accountId || 'cash'`: an absent, undefined or empty account id means cash. */
  function EffectiveAccount(t: Transaction): string
  {
    match t.accountId
    case Some(a) => if a == "" then CashId else a
    case None => CashId
  }

  /** Types that add to a balance. */
  predicate IsInflow(k: TxType)
  {
    k == Income || k == DebtOwedByMe
  }

  /** Types that take from a balance. */
  predicate IsOutflow(k: TxType)
  {
    k == Expense || k == DebtOwedToMe || k == Saving || k == CreditSpend
  }

  /** The signed effect of a transaction on the balance of its account;
      an unrecognised type has none. */
  function SignedAmount(t: Transaction): real
  {
    if IsInflow(t.txType) then t.amount
    else if IsOutflow(t.txType) then -t.amount
    else 0.0
  }

  /** What a transaction adds to the balance of one account. */
  function ContributionTo(accountId: string): Transaction -> real
  {
    (t: Transaction) => if EffectiveAccount(t) == accountId then SignedAmount(t) else 0.0
  }

  /** `getAccountBalance(accountId)`. */
  function AccountBalance(txs: seq<Transaction>, accountId: string): real
  {
    Sum(txs, ContributionTo(accountId))
  }

  function InflowTo(accountId: string): Transaction -> bool
  {
    (t: Transaction) => EffectiveAccount(t) == accountId && IsInflow(t.txType)
  }

  function OutflowFrom(accountId: string): Transaction -> bool
  {
    (t: Transaction) => EffectiveAccount(t) == accountId && IsOutflow(t.txType)
  }

  /** The balance of an account is what flowed in minus what flowed out:
      income and debts owed by the user add, expenses, credit spending,
      savings and debts owed to the user subtract, and nothing else counts. */
  lemma BalanceSplit(txs: seq<Transaction>, accountId: string)
    ensures AccountBalance(txs, accountId) ==
            Sum(Filter(txs, InflowTo(accountId)), Amount) - Sum(Filter(txs, OutflowFrom(accountId)), Amount)
  {
    var inflow := Masked(Amount, InflowTo(accountId));
    var outflow := Masked(Amount, OutflowFrom(accountId));
    SumFilter(txs, InflowTo(accountId), Amount);
    SumFilter(txs, OutflowFrom(accountId), Amount);
    SumPointwise(txs, ContributionTo(accountId), outflow, inflow);
  }

  /** The balance does not depend on the order of the transactions. */
  lemma BalancePermutation(a: seq<Transaction>, b: seq<Transaction>, accountId: string)
    requires multiset(a) == multiset(b)
    ensures AccountBalance(a, accountId) == AccountBalance(b, accountId)
  {
    SumPermutation(a, b, ContributionTo(accountId));
  }

  predicate NotDefault(a: PaymentAccount)
  {
    !a.isDefault
  }

  function BalanceOf(txs: seq<Transaction>): PaymentAccount -> real
  {
    (acc: PaymentAccount) => AccountBalance(txs, acc.id)
  }

  function AccountId(a: PaymentAccount): string
  {
    a.id
  }

  /** The ids of the accounts that `totalBalance` adds to the cash balance. */
  function NonDefaultIds(accounts: seq<PaymentAccount>): seq<string>
  {
    Map(Filter(accounts, NotDefault), AccountId)
  }

  /** `totalBalance`: the balance of `'cash'` plus those of the non-default accounts. */
  function TotalBalance(txs: seq<Transaction>, accounts: seq<PaymentAccount>): real
  {
    AccountBalance(txs, CashId) + Sum(Filter(accounts, NotDefault), BalanceOf(txs))
  }

  /** The signed amount of a transaction whose account is one of `ids`, else 0. */
  function CountedIn(ids: seq<string>): Transaction -> real
  {
    (t: Transaction) => if EffectiveAccount(t) in ids then SignedAmount(t) else 0.0
  }

  lemma {:induction false} AccountSums(txs: seq<Transaction>, accs: seq<PaymentAccount>)
    requires NoDup(Map(accs, AccountId))
    ensures Sum(accs, BalanceOf(txs)) == Sum(txs, CountedIn(Map(accs, AccountId)))
  {
    var ids := Map(accs, AccountId);
    if accs == [] {
      SumPointwise(txs, CountedIn(ids), CountedIn(ids), CountedIn(ids));
    } else {
      var rest := Map(accs[1..], AccountId);
      assert ids == [accs[0].id] + rest;
      assert NoDup(rest) by {
        forall i, j | 0 <= i < j < |rest| ensures rest[i] != rest[j] {
          assert rest[i] == ids[i + 1] && rest[j] == ids[j + 1];
        }
      }
      AccountSums(txs, accs[1..]);
      forall i | 0 <= i < |txs|
        ensures ContributionTo(accs[0].id)(txs[i]) + CountedIn(rest)(txs[i]) == CountedIn(ids)(txs[i])
      {
        if EffectiveAccount(txs[i]) == accs[0].id {
          assert accs[0].id !in rest by {
            forall j | 0 <= j < |rest| ensures rest[j] != ids[0] {
              assert rest[j] == ids[j + 1];
            }
          }
        }
      }
      SumPointwise(txs, ContributionTo(accs[0].id), CountedIn(rest), CountedIn(ids));
    }
  }

  /** When the non-default accounts have distinct ids, none of them `'cash'`,
      the total balance counts each transaction once if its account is cash or
      one of those accounts, and not at all otherwise (for instance when its
      account has been deleted). */
  lemma TotalBalanceCounts(txs: seq<Transaction>, accounts: seq<PaymentAccount>)
    requires NoDup([CashId] + NonDefaultIds(accounts))
    ensures TotalBalance(txs, accounts) == Sum(txs, CountedIn([CashId] + NonDefaultIds(accounts)))
  {
    var ids := NonDefaultIds(accounts);
    var all := [CashId] + ids;
    assert NoDup(ids) by {
      forall i, j | 0 <= i < j < |ids| ensures ids[i] != ids[j] {
        assert ids[i] == all[i + 1] && ids[j] == all[j + 1];
      }
    }
    AccountSums(txs, Filter(accounts, NotDefault));
    assert CashId !in ids by {
      forall j | 0 <= j < |ids| ensures ids[j] != CashId {
        assert ids[j] == all[j + 1] && all[0] == CashId;
      }
    }
    forall i | 0 <= i < |txs|
      ensures ContributionTo(CashId)(txs[i]) + CountedIn(ids)(txs[i]) == CountedIn(all)(txs[i])
    {
    }
    SumPointwise(txs, ContributionTo(CashId), CountedIn(ids), CountedIn(all));
  }

  // ---------------------------------------------------------------------
  // The month view

  function InMonthOf(current: Stamp): Transaction -> bool
  {
    (t: Transaction) => SameMonth(t.date, current)
  }

  /** The sort key of the month view: the transaction's time value. */
  function TimeKey(t: Transaction): real
  {
    t.date.time as real
  }

  /** `filteredTransactions`: the transactions of the viewed month, newest first. */
  function FilteredTransactions(txs: seq<Transaction>, current: Stamp): seq<Transaction>
  {
    SortDesc(Filter(txs, InMonthOf(current)), TimeKey)
  }

  /** The month view holds exactly the transactions dated in the viewed month
      and year, each as often as in the ledger; it is ordered newest first, and
      transactions with the same time keep their ledger order. */
  lemma FilteredSpec(txs: seq<Transaction>, current: Stamp)
    ensures forall t :: t in FilteredTransactions(txs, current) <==> t in txs && SameMonth(t.date, current)
    ensures multiset(FilteredTransactions(txs, current)) == multiset(Filter(txs, InMonthOf(current)))
    ensures Descending(FilteredTransactions(txs, current), TimeKey)
    ensures forall k :: Filter(FilteredTransactions(txs, current), HasKey(TimeKey, k)) ==
                        Filter(Filter(txs, InMonthOf(current)), HasKey(TimeKey, k))
  {
    var month := Filter(txs, InMonthOf(current));
    SortDescFacts(month, TimeKey);
    forall k {
      SortDescStable(month, TimeKey, k);
    }
    forall t ensures t in FilteredTransactions(txs, current) <==> t in txs && SameMonth(t.date, current) {
      assert t in FilteredTransactions(txs, current) <==> t in multiset(month);
      if t in month {
        var i :| 0 <= i < |month| && month[i] == t;
      }
      if t in txs && SameMonth(t.date, current) {
        var i :| 0 <= i < |txs| && txs[i] == t;
      }
    }
  }

  // ---------------------------------------------------------------------
  // Budgets

  function SpendingIn(category: string): Transaction -> bool
  {
    (t: Transaction) => IsSpending(t.txType) && t.category == category
  }

  /** What was spent on a category: expenses and credit spending only. */
  function SpentOn(txs: seq<Transaction>, category: string): real
  {
    Sum(Filter(txs, SpendingIn(category)), Amount)
  }

  /** `Math.min((spent / limit) * 100, 100)`. A zero limit gives a full bar
      when something was spent and an empty one otherwise. */
  function Percentage(spent: real, limit: real): (r: real)
    ensures r <= 100.0
    ensures limit > 0.0 ==> (r == 100.0 <==> spent >= limit)
    ensures limit > 0.0 && spent < limit ==> r * limit == spent * 100.0
    ensures limit > 0.0 && spent >= 0.0 ==> r >= 0.0
  {
    if limit == 0.0 then (if spent > 0.0 then 100.0 else 0.0)
    else
      var p := spent / limit * 100.0;
      if p < 100.0 then p else 100.0
  }

  datatype BudgetStatus = BudgetStatus(category: string, limit: real, spent: real, percentage: real)

  function StatusIn(txs: seq<Transaction>): Budget -> BudgetStatus
  {
    (b: Budget) => var spent := SpentOn(txs, b.category);
         BudgetStatus(b.category, b.limit, spent, Percentage(spent, b.limit))
  }

  function PercentKey(s: BudgetStatus): real
  {
    s.percentage
  }

  /** `budgetProgress`: one status per budget, fullest first. */
  function BudgetProgress(budgets: seq<Budget>, month: seq<Transaction>): seq<BudgetStatus>
  {
    SortDesc(Map(budgets, StatusIn(month)), PercentKey)
  }

  /** Budget progress lists every budget once, fullest first; each entry's
      spent amount is what the month's expenses and credit spending in that
      category add up to, and no percentage exceeds 100. */
  lemma BudgetProgressSpec(budgets: seq<Budget>, month: seq<Transaction>)
    ensures |BudgetProgress(budgets, month)| == |budgets|
    ensures multiset(BudgetProgress(budgets, month)) == multiset(Map(budgets, StatusIn(month)))
    ensures Descending(BudgetProgress(budgets, month), PercentKey)
    ensures forall i :: 0 <= i < |budgets| ==>
              var s := BudgetProgress(budgets, month)[i];
              s.percentage <= 100.0 && s.spent == SpentOn(month, s.category) &&
              Budget(s.category, s.limit) in budgets
  {
    var statuses := Map(budgets, StatusIn(month));
    var r := BudgetProgress(budgets, month);
    SortDescFacts(statuses, PercentKey);
    forall i | 0 <= i < |budgets|
      ensures r[i].percentage <= 100.0 && r[i].spent == SpentOn(month, r[i].category) &&
              Budget(r[i].category, r[i].limit) in budgets
    {
      assert r[i] in multiset(statuses);
      var j :| 0 <= j < |statuses| && statuses[j] == r[i];
      assert budgets[j] == Budget(r[i].category, r[i].limit);
    }
  }

  // ---------------------------------------------------------------------
  // Saving goals

  function SavingFor(goalId: string): Transaction -> bool
  {
    (t: Transaction) => t.txType == Saving && t.goalId == Some(goalId)
  }

  /** What the SAVING transactions linked to a goal add up to. */
  function SavedFor(txs: seq<Transaction>, goalId: string): real
  {
    Sum(Filter(txs, SavingFor(goalId)), Amount)
  }

  function WithProgress(txs: seq<Transaction>): SavingGoal -> SavingGoal
  {
    (g: SavingGoal) => g.(currentAmount := SavedFor(txs, g.id))
  }

  /** `updatedGoals`: each goal with its current amount recomputed from the ledger. */
  function UpdatedGoals(goals: seq<SavingGoal>, txs: seq<Transaction>): (r: seq<SavingGoal>)
    ensures |r| == |goals|
    ensures forall i :: 0 <= i < |goals| ==>
              r[i].(currentAmount := goals[i].currentAmount) == goals[i] &&
              r[i].currentAmount == Sum(Filter(txs, SavingFor(goals[i].id)), Amount)
  {
    Map(goals, WithProgress(txs))
  }

  function IdIs(goalId: string): SavingGoal -> bool
  {
    (g: SavingGoal) => g.id == goalId
  }

  /** The check of `checkGoalCompletion` on the given goals: the first goal
      with the id, if adding the amount takes it from below its target to
      the target or beyond. */
  function ReachedGoal(goals: seq<SavingGoal>, goalId: string, added: real): (r: Option<SavingGoal>)
    ensures r.Some? <==>
            exists i :: 0 <= i < |goals| && goals[i].id == goalId &&
                        (forall j :: 0 <= j < i ==> goals[j].id != goalId) &&
                        goals[i].currentAmount < goals[i].targetAmount <= goals[i].currentAmount + added
    ensures r.Some? ==> exists i :: 0 <= i < |goals| && goals[i] == r.value && goals[i].id == goalId &&
                                    forall j :: 0 <= j < i ==> goals[j].id != goalId
  {
    match Find(goals, IdIs(goalId))
    case None => None
    case Some(g) =>
      if g.currentAmount < g.targetAmount && g.currentAmount + added >= g.targetAmount then Some(g) else None
  }

  /** Looking a goal up among the updated goals finds the updated copy of
      the goal that the lookup finds among the stored ones. */
  lemma {:induction false} FindProgress(goals: seq<SavingGoal>, txs: seq<Transaction>, goalId: string)
    ensures Find(UpdatedGoals(goals, txs), IdIs(goalId)) ==
            match Find(goals, IdIs(goalId))
            case None => None
            case Some(g) => Some(WithProgress(txs)(g))
  {
    if goals != [] {
      FindProgress(goals[1..], txs, goalId);
      assert UpdatedGoals(goals, txs)[1..] == UpdatedGoals(goals[1..], txs);
    }
  }

  /** A new record adds its amount to the savings of the goal it names, and
      nothing to any other goal. */
  lemma SavedForPrepend(t: Transaction, txs: seq<Transaction>, goalId: string)
    ensures SavedFor([t] + txs, goalId) == SavedFor(txs, goalId) + (if SavingFor(goalId)(t) then t.amount else 0.0)
  {
    var p := SavingFor(goalId);
    assert ([t] + txs)[1..] == txs;
    SumAppend(if p(t) then [t] else [], Filter(txs, p), Amount);
  }

  /** Completion is an edge: once a saving has taken a goal to its target, a
      later non-negative saving for it does not signal again. */
  lemma ReachedOnce(goals: seq<SavingGoal>, txs: seq<Transaction>, t: Transaction, later: real)
    requires t.txType == Saving && t.goalId.Some? && t.amount >= 0.0
    requires ReachedGoal(UpdatedGoals(goals, txs), t.goalId.value, t.amount).Some?
    ensures ReachedGoal(UpdatedGoals(goals, [t] + txs), t.goalId.value, later).None?
  {
    var id := t.goalId.value;
    FindProgress(goals, txs, id);
    FindProgress(goals, [t] + txs, id);
    var g := Find(goals, IdIs(id)).value;
    SavedForPrepend(t, txs, g.id);
  }

  // ---------------------------------------------------------------------
  // Categories

  function Category(t: Transaction): string
  {
    t.category
  }

  predicate NonEmpty(s: string)
  {
    s != ""
  }

  /** `uniqueCategories`: the non-empty categories used by transactions, then
      the default ones, then the custom ones, each once, at its first place. */
  function UniqueCategories(txs: seq<Transaction>, defaults: seq<string>, custom: seq<string>): seq<string>
  {
    Dedup(Dedup(Filter(Map(txs, Category), NonEmpty)) + defaults + custom)
  }

  lemma DedupMembers(s: seq<string>)
    ensures NoDup(Dedup(s))
    ensures forall x :: x in Dedup(s) <==> x in s
  {
    DedupSpec(s);
    forall x | x in s ensures x in Dedup(s) {
      var i :| 0 <= i < |s| && s[i] == x;
    }
    forall x | x in Dedup(s) ensures x in s {
      var i :| 0 <= i < |Dedup(s)| && Dedup(s)[i] == x;
    }
  }

  /** The category list has no repeats and holds exactly the non-empty
      transaction categories, the defaults and the custom categories. */
  lemma UniqueCategoriesSpec(txs: seq<Transaction>, defaults: seq<string>, custom: seq<string>)
    ensures NoDup(UniqueCategories(txs, defaults, custom))
    ensures forall c :: c in UniqueCategories(txs, defaults, custom) <==>
              (c != "" && exists i :: 0 <= i < |txs| && txs[i].category == c) || c in defaults || c in custom
  {
    var used := Filter(Map(txs, Category), NonEmpty);
    DedupMembers(used);
    DedupMembers(Dedup(used) + defaults + custom);
    forall c ensures c in used <==> c != "" && exists i :: 0 <= i < |txs| && txs[i].category == c {
      if c != "" && exists i :: 0 <= i < |txs| && txs[i].category == c {
        var i :| 0 <= i < |txs| && txs[i].category == c;
        assert Map(txs, Category)[i] == c;
      }
      if c in used {
        var cats := Map(txs, Category);
        assert c in cats;
        var i :| 0 <= i < |cats| && cats[i] == c;
        assert txs[i].category == c;
      }
    }
  }

  // ---------------------------------------------------------------------
  // Budgets list

  function CategoryIsNot(category: string): Budget -> bool
  {
    (b: Budget) => b.category != category
  }

  /** `handleSetBudget`: drop any budget of the category and append the new one. */
  function Upsert(budgets: seq<Budget>, category: string, limit: real): seq<Budget>
  {
    Filter(budgets, CategoryIsNot(category)) + [Budget(category, limit)]
  }

  /** After setting a budget exactly one budget has the category, with the new
      limit; the budgets of other categories are the same, in the same order. */
  lemma UpsertSpec(budgets: seq<Budget>, category: string, limit: real)
    ensures var r := Upsert(budgets, category, limit);
            (forall i :: 0 <= i < |r| ==> (r[i].category == category <==> i == |r| - 1)) &&
            r[|r| - 1].limit == limit &&
            Filter(r, CategoryIsNot(category)) == Filter(budgets, CategoryIsNot(category))
  {
    var kept := Filter(budgets, CategoryIsNot(category));
    FilterAppend(kept, [Budget(category, limit)], CategoryIsNot(category));
    FilterAll(kept, CategoryIsNot(category));
  }

  /** Setting the same budget twice is setting it once. */
  lemma UpsertIdempotent(budgets: seq<Budget>, category: string, limit: real)
    ensures Upsert(Upsert(budgets, category, limit), category, limit) == Upsert(budgets, category, limit)
  {
    UpsertSpec(budgets, category, limit);
  }

  // ---------------------------------------------------------------------
  // Due debts

  /** A debt the user owes, with a reminder date on or before today, not yet paid. */
  predicate IsDue(t: Transaction, today: string)
  {
    t.txType == DebtOwedByMe && t.reminderDate.Some? && t.reminderDate.value != "" &&
    LexLe(t.reminderDate.value, today) && !t.isPaid
  }

  function DueOn(today: string): Transaction -> bool
  {
    (t: Transaction) => IsDue(t, today)
  }

  /** The `dueDebts` of `checkReminders`; `overdueCount` is its length. */
  function DueDebts(txs: seq<Transaction>, today: string): seq<Transaction>
  {
    Filter(txs, DueOn(today))
  }

  /** `overdueCount` counts exactly the due debts of the ledger, each as
      often as it occurs there. */
  lemma DueDebtsSpec(txs: seq<Transaction>, today: string)
    ensures forall t :: t in DueDebts(txs, today) <==> t in txs && IsDue(t, today)
    ensures forall t :: IsDue(t, today) ==> multiset(DueDebts(txs, today))[t] == multiset(txs)[t]
    ensures multiset(DueDebts(txs, today)) <= multiset(txs)
  {
    forall t | t in txs && IsDue(t, today) ensures t in DueDebts(txs, today) {
      var i :| 0 <= i < |txs| && txs[i] == t;
    }
    forall t | t in DueDebts(txs, today) ensures t in txs && IsDue(t, today) {
      var i :| 0 <= i < |DueDebts(txs, today)| && DueDebts(txs, today)[i] == t;
    }
    FilterMultiset(txs, DueOn(today));
    assert forall t :: IsDue(t, today) ==> DueOn(today)(t);
  }

  /** With both dates in YYYY-MM-DD form, a debt is due exactly when its
      reminder date is on or before today on the calendar. */
  lemma DueByCalendar(t: Transaction, reminder: Calendar.Date, today: Calendar.Date)
    requires Calendar.Valid(reminder) && Calendar.Valid(today)
    requires t.reminderDate == Some(Calendar.Iso(reminder))
    ensures IsDue(t, Calendar.Iso(today)) <==>
            t.txType == DebtOwedByMe && !t.isPaid && Calendar.OnOrBefore(reminder, today)
  {
    Calendar.IsoOrder(reminder, today);
  }

  /** `checkReminders`: the number of due debts announced by a notification,
      or None when nothing is announced (no Notification API, permission not
      granted, or nothing due). */
  function ReminderCount(supported: bool, granted: bool, txs: seq<Transaction>, today: string): (r: Option<nat>)
    ensures r.Some? <==> supported && granted && exists i :: 0 <= i < |txs| && IsDue(txs[i], today)
    ensures r.Some? ==> r.value == |DueDebts(txs, today)| > 0
  {
    var due := DueDebts(txs, today);
    if !supported then None
    else if |due| > 0 && granted then
      assert due[0] in txs && IsDue(due[0], today);
      Some(|due|)
    else
      None
  }
}
