/** The state App.tsx keeps and the handlers that replace it. Each React
    state slice is a field of `Store`; each handler is a method that assigns
    the fields its setters assign. A handler runs as one step: the snapshot
    it reads is the state before the step, as in the closures of the
    component, and "now", fresh ids and the outcome of reading a backup are
    parameters. */
module AppState {
  import opened Seqs
  import opened Types
  import opened Ledger

  /** The banner text set by `setNotification`, by what it announces. */
  datatype Notice = GoalReached(goalName: string) | BudgetSet(category: string) | Message(text: string)

  datatype ChatMessage = ChatMessage(text: string, isUser: bool)

  /** A parsed backup file: each field present (and truthy) or not. */
  datatype Backup = Backup(
    transactions: Option<seq<Transaction>>,
    accounts: Option<seq<PaymentAccount>>,
    budgets: Option<seq<Budget>>,
    savingGoals: Option<seq<SavingGoal>>,
    customCategories: Option<seq<string>>,
    features: Option<Features>)

  /** Every field of the store, so that a handler can say what it leaves alone. */
  datatype Data = Data(
    transactions: seq<Transaction>,
    accounts: seq<PaymentAccount>,
    budgets: seq<Budget>,
    savingGoals: seq<SavingGoal>,
    customCategories: seq<string>,
    features: Features,
    currentDate: Stamp,
    isPremium: bool,
    settingsOpen: bool,
    subscriptionOpen: bool,
    notification: Option<Notice>,
    goalAlerts: seq<string>,
    chat: seq<ChatMessage>,
    selected: Option<Transaction>)

  const DefaultFeatures := Features(true, true, true, true)

  const CashAccountRecord := PaymentAccount(CashId, "Cash", CashAccount, true)

  /** The record `addTransaction` builds: `{ id, date, accountId: data.accountId
      || 'cash', ...data }`. The keys of `data` come last and win, so a given
      id or date replaces the fresh one, and an `accountId` key that is
      present replaces the default even when it is undefined or empty. */
  function NewRecord(data: TxInput, freshId: string, now: Stamp): (r: Transaction)
    ensures r.amount == data.amount && r.category == data.category &&
            r.description == data.description && r.txType == data.txType && r.goalId == data.goalId
    ensures r.reminderDate == data.reminderDate && r.isPaid == data.isPaid.GetOr(false)
    ensures r.id == (if data.id.Some? then data.id else Some(freshId))
    ensures r.date == (if data.date.Some? then data.date.value else now)
    ensures EffectiveAccount(r) == if data.accountId.Given? && data.accountId.value != "" then data.accountId.value else CashId
  {
    Transaction(
      Some(data.id.GetOr(freshId)),
      data.amount,
      data.description,
      data.category,
      data.txType,
      data.date.GetOr(now),
      data.isPaid.GetOr(false),
      data.reminderDate,
      match data.accountId
      case Absent => Some(CashId)
      case Undefined => None
      case Given(a) => Some(a),
      data.goalId)
  }

  /** Whether `addTransaction` (and the AI path) runs the goal check for this
      data: a SAVING record with a non-empty goal id. */
  predicate ChecksGoal(data: TxInput)
  {
    data.txType == Saving && data.goalId.Some? && data.goalId.value != ""
  }

  /** The goal check runs exactly for the records that count toward a goal:
      adding the record moves the saved amount of a goal by the record's
      amount when the check runs for that goal, and leaves it as it was
      otherwise. */
  lemma CheckedSavingCounts(data: TxInput, freshId: string, now: Stamp, txs: seq<Transaction>, goalId: string)
    requires goalId != ""
    ensures SavedFor([NewRecord(data, freshId, now)] + txs, goalId) ==
            SavedFor(txs, goalId) + if ChecksGoal(data) && data.goalId.value == goalId then data.amount else 0.0
  {
    SavedForPrepend(NewRecord(data, freshId, now), txs, goalId);
  }

  /** The name of the goal whose completion `checkGoalCompletion` celebrates, if any. */
  function Celebrated(goals: seq<SavingGoal>, txs: seq<Transaction>, goalId: string, added: real): (r: Option<string>)
    ensures r.Some? <==> ReachedGoal(UpdatedGoals(goals, txs), goalId, added).Some?
  {
    match ReachedGoal(UpdatedGoals(goals, txs), goalId, added)
    case Some(g) => Some(g.name)
    case None => None
  }

  function IdIsNot(id: string): Transaction -> bool
  {
    (t: Transaction) => t.id != Some(id)
  }

  function AccountIsNot(id: string): PaymentAccount -> bool
  {
    (a: PaymentAccount) => a.id != id
  }

  function CategoryOtherThan(cat: string): string -> bool
  {
    (c: string) => c != cat
  }

  /** `!isPremium && accounts.length >= 2`: the guard of `addAccount` and the
      `isLimitReached` flag of the settings screen. */
  predicate AtAccountLimit(isPremium: bool, accounts: seq<PaymentAccount>)
  {
    !isPremium && |accounts| >= 2
  }

  function Toggled(f: Features, key: FeatureKey): Features
  {
    match key
    case BudgetsFeature => f.(budgets := !f.budgets)
    case GoalsFeature => f.(goals := !f.goals)
    case DebtsInFeature => f.(debtsIn := !f.debtsIn)
    case DebtsOutFeature => f.(debtsOut := !f.debtsOut)
  }

  function Flag(f: Features, key: FeatureKey): bool
  {
    match key
    case BudgetsFeature => f.budgets
    case GoalsFeature => f.goals
    case DebtsInFeature => f.debtsIn
    case DebtsOutFeature => f.debtsOut
  }

  /** Flipping a flag inverts it and no other flag changes, so flipping twice
      restores the features. */
  lemma ToggledTwice(f: Features, key: FeatureKey)
    ensures Flag(Toggled(f, key), key) == !Flag(f, key)
    ensures forall other :: other != key ==> Flag(Toggled(f, key), other) == Flag(f, other)
    ensures Toggled(Toggled(f, key), key) == f
  {
  }

  class Store {
    var transactions: seq<Transaction>
    var accounts: seq<PaymentAccount>
    var budgets: seq<Budget>
    var savingGoals: seq<SavingGoal>
    var customCategories: seq<string>
    var features: Features
    var currentDate: Stamp
    var isPremium: bool
    var settingsOpen: bool
    var subscriptionOpen: bool
    var notification: Option<Notice>
    /** The goals whose completion was celebrated (confetti and banner), in order. */
    var goalAlerts: seq<string>
    var chat: seq<ChatMessage>
    var selected: Option<Transaction>

    function Snapshot(): Data
      reads this
    {
      Data(transactions, accounts, budgets, savingGoals, customCategories, features, currentDate,
           isPremium, settingsOpen, subscriptionOpen, notification, goalAlerts, chat, selected)
    }

    /** The state on a first start, with nothing stored. */
    constructor (now: Stamp, premium: bool)
      ensures transactions == [] && budgets == [] && savingGoals == [] && customCategories == []
      ensures accounts == [CashAccountRecord] && features == DefaultFeatures
      ensures currentDate == now && isPremium == premium
      ensures !settingsOpen && !subscriptionOpen && notification == None
      ensures goalAlerts == [] && chat == [] && selected == None
    {
      transactions := [];
      accounts := [CashAccountRecord];
      budgets := [];
      savingGoals := [];
      customCategories := [];
      features := DefaultFeatures;
      currentDate := now;
      isPremium := premium;
      settingsOpen := false;
      subscriptionOpen := false;
      notification := None;
      goalAlerts := [];
      chat := [];
      selected := None;
    }

    /** `checkGoalCompletion`: celebrates the goal when the added amount takes
        its current amount from below the target to the target or beyond. */
    method CheckGoalCompletion(goalId: string, added: real)
      modifies this
      ensures Snapshot() == old(Snapshot()).(goalAlerts := goalAlerts, notification := notification)
      ensures var c := Celebrated(old(savingGoals), old(transactions), goalId, added);
              goalAlerts == old(goalAlerts) + (if c.Some? then [c.value] else []) &&
              notification == (if c.Some? then Some(GoalReached(c.value)) else old(notification))
    {
      var goal := ReachedGoal(UpdatedGoals(savingGoals, transactions), goalId, added);
      if goal.Some? {
        goalAlerts := goalAlerts + [goal.value.name];
        notification := Some(GoalReached(goal.value.name));
      }
    }

    /** `addTransaction`: the new record goes first; a SAVING record for a
        goal is checked against the goal before it is added; the view jumps to
        the current month when another month is shown. */
    method AddTransaction(data: TxInput, freshId: string, now: Stamp)
      modifies this
      ensures Snapshot() == old(Snapshot()).(transactions := transactions, currentDate := currentDate,
                                             goalAlerts := goalAlerts, notification := notification)
      ensures transactions == [NewRecord(data, freshId, now)] + old(transactions)
      ensures currentDate == if SameMonth(old(currentDate), now) then old(currentDate) else now
      ensures var c := if ChecksGoal(data) then Celebrated(old(savingGoals), old(transactions), data.goalId.value, data.amount) else None;
              goalAlerts == old(goalAlerts) + (if c.Some? then [c.value] else []) &&
              notification == (if c.Some? then Some(GoalReached(c.value)) else old(notification))
    {
      var newTx := NewRecord(data, freshId, now);
      if ChecksGoal(data) {
        CheckGoalCompletion(data.goalId.value, data.amount);
      }
      transactions := [newTx] + transactions;
      if !SameMonth(currentDate, now) {
        currentDate := now;
      }
    }

    /** `deleteTransaction`: every record with the id goes, the others stay in
        order, and the details view closes. */
    method DeleteTransaction(id: string)
      modifies this
      ensures Snapshot() == old(Snapshot()).(transactions := transactions, selected := None)
      ensures transactions == Filter(old(transactions), IdIsNot(id))
      ensures forall i :: 0 <= i < |transactions| ==> transactions[i].id != Some(id)
      ensures (forall i :: 0 <= i < |old(transactions)| ==> old(transactions)[i].id != Some(id)) ==>
              transactions == old(transactions)
    {
      if forall i :: 0 <= i < |transactions| ==> transactions[i].id != Some(id) {
        FilterAll(transactions, IdIsNot(id));
      }
      transactions := Filter(transactions, IdIsNot(id));
      selected := None;
    }

    /** `addAccount`: without premium, a third account is refused and the
        subscription screen opens instead; otherwise one BANK account is appended. */
    method AddAccount(name: string, freshId: string)
      modifies this
      ensures AtAccountLimit(old(isPremium), old(accounts)) ==>
              Snapshot() == old(Snapshot()).(settingsOpen := false, subscriptionOpen := true)
      ensures !AtAccountLimit(old(isPremium), old(accounts)) ==>
              Snapshot() == old(Snapshot()).(accounts := old(accounts) + [PaymentAccount(freshId, name, BankAccount, false)])
      ensures !isPremium ==> |accounts| <= if |old(accounts)| < 2 then 2 else |old(accounts)|
    {
      if AtAccountLimit(isPremium, accounts) {
        settingsOpen := false;
        subscriptionOpen := true;
        return;
      }
      accounts := accounts + [PaymentAccount(freshId, name, BankAccount, false)];
    }

    method DeleteAccount(id: string)
      modifies this
      ensures Snapshot() == old(Snapshot()).(accounts := Filter(old(accounts), AccountIsNot(id)))
      ensures forall i :: 0 <= i < |accounts| ==> accounts[i].id != id
    {
      accounts := Filter(accounts, AccountIsNot(id));
    }

    /** `addCategory`: appends a category that is not there yet, so the list
        never holds one twice. */
    method AddCategory(cat: string)
      modifies this
      ensures Snapshot() == old(Snapshot()).(customCategories := customCategories)
      ensures customCategories == if cat in old(customCategories) then old(customCategories) else old(customCategories) + [cat]
      ensures NoDup(old(customCategories)) ==> NoDup(customCategories)
    {
      if cat !in customCategories {
        customCategories := customCategories + [cat];
      }
    }

    method RemoveCategory(cat: string)
      modifies this
      ensures Snapshot() == old(Snapshot()).(customCategories := Filter(old(customCategories), CategoryOtherThan(cat)))
      ensures cat !in customCategories
    {
      customCategories := Filter(customCategories, CategoryOtherThan(cat));
    }

    /** `handleSetBudget`: replaces the budget of the category. */
    method SetBudget(category: string, limit: real)
      modifies this
      ensures Snapshot() == old(Snapshot()).(budgets := Upsert(old(budgets), category, limit),
                                             notification := Some(BudgetSet(category)))
    {
      budgets := Upsert(budgets, category, limit);
      notification := Some(BudgetSet(category));
    }

    /** `handleImportData` once the file has been read: a backup that does not
        parse changes nothing; otherwise each field present in it replaces its
        slice, the others are kept, and the settings close. */
    method ImportData(backup: Option<Backup>) returns (restored: bool)
      modifies this
      ensures restored <==> backup.Some?
      ensures backup.None? ==> Snapshot() == old(Snapshot())
      ensures backup.Some? ==>
              var b := backup.value;
              Snapshot() == old(Snapshot()).(
                transactions := b.transactions.GetOr(old(transactions)),
                accounts := b.accounts.GetOr(old(accounts)),
                budgets := b.budgets.GetOr(old(budgets)),
                savingGoals := b.savingGoals.GetOr(old(savingGoals)),
                customCategories := b.customCategories.GetOr(old(customCategories)),
                features := b.features.GetOr(old(features)),
                settingsOpen := false)
    {
      if backup.None? {
        return false;
      }
      var b := backup.value;
      transactions := b.transactions.GetOr(transactions);
      accounts := b.accounts.GetOr(accounts);
      budgets := b.budgets.GetOr(budgets);
      savingGoals := b.savingGoals.GetOr(savingGoals);
      customCategories := b.customCategories.GetOr(customCategories);
      features := b.features.GetOr(features);
      settingsOpen := false;
      return true;
    }

    method ToggleFeature(key: FeatureKey)
      modifies this
      ensures Snapshot() == old(Snapshot()).(features := Toggled(old(features), key))
    {
      features := Toggled(features, key);
    }

    /** The TRANSACTION branch of `handleAICommand`: the goal is checked, and
        `addTransaction` then checks it again on the same snapshot, so a goal
        reached by the command is celebrated twice; the record goes on cash. */
    method AddFromCommand(data: TxInput, freshId: string, now: Stamp)
      modifies this
      ensures var c := if ChecksGoal(data)
                       then Celebrated(old(savingGoals), old(transactions), data.goalId.value, data.amount)
                       else None;
              Snapshot() == old(Snapshot()).(
                transactions := [NewRecord(data.(accountId := Given(CashId)), freshId, now)] + old(transactions),
                currentDate := if SameMonth(old(currentDate), now) then old(currentDate) else now,
                goalAlerts := old(goalAlerts) + (if c.Some? then [c.value, c.value] else []),
                notification := if c.Some? then Some(GoalReached(c.value)) else old(notification))
    {
      var onCash := data.(accountId := Given(CashId));
      assert ChecksGoal(onCash) == ChecksGoal(data);
      if ChecksGoal(data) {
        CheckGoalCompletion(data.goalId.value, data.amount);
      }
      AddTransaction(onCash, freshId, now);
    }

    /** `handleAICommand`: logs the exchange in the chat, then a TRANSACTION
        is added on the cash account (its goal is checked here and once more
        inside `addTransaction`, on the same snapshot), a BUDGET is set only
        while budgets are enabled, anything else changes no data; the banner
        finally shows the model's message. A reply without `data` throws at
        the first line, before anything changes: `threw` reports it. */
    method HandleCommand(result: CommandResult, freshId: string, now: Stamp) returns (threw: bool)
      modifies this
      ensures threw <==> Unhandled(result)
      ensures threw ==> Snapshot() == old(Snapshot())
      ensures result.data.Some? ==>
              var d := result.data.value;
              chat == old(chat) + [ChatMessage(if d.description != "" then d.description else "Command", true),
                                   ChatMessage(result.message, false)] &&
              notification == Some(Message(result.message))
      ensures result.data.Some? && result.action == TransactionAction ==>
              var d := result.data.value;
              var c := if ChecksGoal(d)
                       then Celebrated(old(savingGoals), old(transactions), d.goalId.value, d.amount)
                       else None;
              Snapshot() == old(Snapshot()).(
                transactions := [NewRecord(d.(accountId := Given(CashId)), freshId, now)] + old(transactions),
                currentDate := if SameMonth(old(currentDate), now) then old(currentDate) else now,
                goalAlerts := old(goalAlerts) + (if c.Some? then [c.value, c.value] else []),
                notification := notification, chat := chat)
      ensures result.data.Some? && result.action == BudgetAction && old(features).budgets ==>
              Snapshot() == old(Snapshot()).(budgets := Upsert(old(budgets), result.data.value.category, result.data.value.amount),
                                             notification := notification, chat := chat)
      ensures result.data.Some? && result.action != TransactionAction && !(result.action == BudgetAction && old(features).budgets) ==>
              Snapshot() == old(Snapshot()).(notification := notification, chat := chat)
    {
      if result.data.None? {
        return true;
      }
      threw := false;
      var d := result.data.value;
      var question := if d.description != "" then d.description else "Command";
      chat := chat + [ChatMessage(question, true), ChatMessage(result.message, false)];
      if result.action == TransactionAction {
        AddFromCommand(d, freshId, now);
      } else if result.action == BudgetAction && features.budgets {
        SetBudget(d.category, d.amount);
      } else if result.action == GoalAction && features.goals {
        // creating a goal from a command is not implemented
      }
      notification := Some(Message(result.message));
    }
  }
}
