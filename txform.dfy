/** The logic of AddTransactionModal.tsx: the category list and its
    case-insensitive filter, the category suggested from the description,
    the reset applied when the form opens, and the record it submits. The
    amount arrives already parsed; `parseFloat` is not part of this model. */
module TxForm {
  import opened Seqs
  import opened Text
  import opened Types
  import Ledger

  /** `allCategories`: the default categories, then the existing ones, each once. */
  function AllCategories(defaults: seq<string>, existing: seq<string>): seq<string>
  {
    Dedup(defaults + existing)
  }

  /** The list holds each default and existing category exactly once, and
      starts with the defaults in their own order. */
  lemma AllCategoriesSpec(defaults: seq<string>, existing: seq<string>)
    ensures NoDup(AllCategories(defaults, existing))
    ensures forall c :: c in AllCategories(defaults, existing) <==> c in defaults || c in existing
    ensures NoDup(defaults) ==> |defaults| <= |AllCategories(defaults, existing)| &&
                                AllCategories(defaults, existing)[..|defaults|] == defaults
  {
    Ledger.DedupMembers(defaults + existing);
    DedupPrefix(defaults, existing);
    if NoDup(defaults) {
      DedupOfNoDup(defaults);
    }
  }

  /** `c.toLowerCase().includes(query.toLowerCase())`. */
  function MatchesQuery(query: string): string -> bool
  {
    (c: string) => Contains(ToLower(c), ToLower(query))
  }

  /** `filteredCategories`. */
  function FilteredCategories(all: seq<string>, query: string): seq<string>
  {
    Filter(all, MatchesQuery(query))
  }

  /** The filter keeps exactly the categories that contain the typed text,
      ignoring case, and an empty query keeps the whole list. */
  lemma FilteredCategoriesSpec(all: seq<string>, query: string)
    ensures forall c :: c in FilteredCategories(all, query) <==> c in all && Contains(ToLower(c), ToLower(query))
    ensures query == "" ==> FilteredCategories(all, query) == all
  {
    forall c | c in all && Contains(ToLower(c), ToLower(query)) ensures c in FilteredCategories(all, query) {
      var i :| 0 <= i < |all| && all[i] == c;
    }
    forall c | c in FilteredCategories(all, query) ensures c in all && Contains(ToLower(c), ToLower(query)) {
      var i :| 0 <= i < |FilteredCategories(all, query)| && FilteredCategories(all, query)[i] == c;
    }
    if query == "" {
      forall i | 0 <= i < |all| ensures MatchesQuery(query)(all[i]) {
        assert StartsWith(ToLower(all[i]), ToLower(query));
      }
      FilterAll(all, MatchesQuery(query));
    }
  }

  /** `t.description && t.description.toLowerCase().includes(q)`. */
  function Mentions(q: string): Transaction -> bool
  {
    (t: Transaction) => t.description != "" && Contains(ToLower(t.description), q)
  }

  /** The suggestion effect: nothing for a blank description; otherwise the
      category of the first recent transaction whose description contains
      the lowercased, trimmed input. */
  function Suggestion(description: string, recent: seq<Transaction>): (r: Option<string>)
    ensures Trim(description) == "" ==> r.None?
    ensures Trim(description) != "" ==>
              (r.Some? <==> exists i :: 0 <= i < |recent| && Mentions(Trim(ToLower(description)))(recent[i]))
    ensures r.Some? ==> exists i :: 0 <= i < |recent| && recent[i].category == r.value &&
                                    Mentions(Trim(ToLower(description)))(recent[i]) &&
                                    forall j :: 0 <= j < i ==> !Mentions(Trim(ToLower(description)))(recent[j])
  {
    if Trim(description) == "" then None
    else
      match Find(recent, Mentions(Trim(ToLower(description))))
      case Some(t) => Some(t.category)
      case None => None
  }

  /** `accounts[0]?.id || 'cash'`. */
  function FirstAccountId(accounts: seq<PaymentAccount>): string
  {
    if accounts != [] && accounts[0].id != "" then accounts[0].id else Ledger.CashId
  }

  class Form {
    var amount: string
    var category: string
    var description: string
    var reminderDate: string
    var txType: TxType
    var accountId: string
    var selectedGoalId: string
    var suggested: Option<string>

    /** The fields as first created, before any opening. */
    constructor (initialType: TxType, accounts: seq<PaymentAccount>)
      ensures amount == "" && category == "" && description == "" && reminderDate == ""
      ensures txType == initialType && accountId == FirstAccountId(accounts)
      ensures selectedGoalId == "" && suggested.None?
    {
      amount := "";
      category := "";
      description := "";
      reminderDate := "";
      txType := initialType;
      accountId := FirstAccountId(accounts);
      selectedGoalId := "";
      suggested := None;
    }

    /** The effect run when the form opens: every field back to empty, the
        type to the one requested, the account to the first account or cash. */
    method Open(initialType: TxType, accounts: seq<PaymentAccount>)
      modifies this
      ensures amount == "" && category == "" && description == "" && reminderDate == ""
      ensures txType == initialType && selectedGoalId == "" && suggested.None?
      ensures accountId != ""
      ensures accountId == if accounts != [] && accounts[0].id != "" then accounts[0].id else Ledger.CashId
    {
      txType := initialType;
      amount := "";
      category := "";
      description := "";
      reminderDate := "";
      accountId := FirstAccountId(accounts);
      selectedGoalId := "";
      suggested := None;
    }

    /** The suggestion effect, run when the description or the recent
        transactions change. */
    method Suggest(recent: seq<Transaction>)
      modifies this
      ensures suggested == Suggestion(description, recent)
      ensures amount == old(amount) && category == old(category) && description == old(description) &&
              reminderDate == old(reminderDate) && txType == old(txType) &&
              accountId == old(accountId) && selectedGoalId == old(selectedGoalId)
    {
      suggested := Suggestion(description, recent);
    }

    /** `handleSubmit`: the record handed to `addTransaction`. The goal is sent
        only for a saving, an empty reminder is left undefined, and the chosen
        account is always given. */
    method Submit(parsedAmount: real) returns (data: TxInput)
      ensures data.amount == parsedAmount && data.category == category &&
              data.description == description && data.txType == txType
      ensures data.goalId == if txType == Saving then Some(selectedGoalId) else None
      ensures data.reminderDate == if reminderDate == "" then None else Some(reminderDate)
      ensures data.accountId == Given(accountId)
      ensures data.id.None? && data.date.None? && data.isPaid.None?
    {
      data := TxInput(parsedAmount, category, description, txType, None, None, None,
                      if reminderDate == "" then None else Some(reminderDate),
                      Given(accountId),
                      if txType == Saving then Some(selectedGoalId) else None);
    }
  }
}
