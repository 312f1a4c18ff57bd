/** The two calls of geminiService.ts around the language model, without the
    model itself: what `parseAIInput` sends and how it turns the reply into a
    command, and what `getFinancialAdvice` summarises and returns. The model's
    reply is a parameter; so is JSON parsing, as a function that yields no
    command where `JSON.parse` throws or yields `null`. */
module Advisor {
  import opened Seqs
  import opened Sorting
  import opened Text
  import opened Types
  import opened Stats
  import Ledger

  /** The reply of one model request: the request failed (threw), or it came
      back with `response.text`, which is "" when empty or undefined. */
  datatype Reply = Failed | Answered(text: string)

  // ---------------------------------------------------------------------
  // parseAIInput

  const Fence: string := "```"

  /** Strips every "```json" and then every "```", then trims. */
  function Cleanup(text: string): string
  {
    Trim(RemoveAll(RemoveAll(text, "```json"), Fence))
  }

  /** After the cleanup no fence is left, and the text neither starts nor ends
      with whitespace. */
  lemma CleanupSpec(text: string)
    ensures !Contains(Cleanup(text), Fence)
    ensures Cleanup(text) != [] ==> !IsSpace(Cleanup(text)[0]) && !IsSpace(Cleanup(text)[|Cleanup(text)| - 1])
  {
    var stripped := RemoveAll(RemoveAll(text, "```json"), Fence);
    RemoveAllFences(RemoveAll(text, "```json"));
    TrimSpec(stripped);
    var i, j :| 0 <= i <= j <= |stripped| && Trim(stripped) == stripped[i..j] && AllSpace(stripped[..i]) && AllSpace(stripped[j..]);
    if Contains(Cleanup(text), Fence) {
      ContainsInfix(stripped, i, j, Fence);
      assert false;
    }
  }

  /** A reply without fences loses only its surrounding whitespace. */
  lemma CleanupPlain(text: string)
    requires !Contains(text, Fence)
    ensures Cleanup(text) == Trim(text)
  {
    if Contains(text, "```json") {
      assert Fence + "json" == "```json";
      ContainsPrefix(text, Fence, "json");
    }
    RemoveAllAbsent(text, "```json");
    RemoveAllAbsent(text, Fence);
  }

  /** A reply wrapped in a "```json" ... "```" block whose body holds no
      backtick becomes that body without its surrounding whitespace. */
  lemma CleanupFenced(body: string)
    requires forall i :: 0 <= i < |body| ==> body[i] != '`'
    ensures Cleanup("```json" + body + Fence) == Trim(body)
  {
    var s := "```json" + body + Fence;
    assert s[..7] == "```json";
    assert s[7..] == body + Fence;
    RemoveAllSkip(body, Fence, "```json");
    assert RemoveAll(Fence, "```json") == Fence;
    assert RemoveAll(s, "```json") == body + Fence;
    RemoveAllSkip(body, Fence, Fence);
    assert RemoveAll(Fence, Fence) == RemoveAll([], Fence) == [];
    assert body + [] == body;
  }

  /** One goal as the prompt lists it: `ID "<id>": "<name>"`. */
  function GoalItem(g: SavingGoal): string
  {
    "ID \"" + g.id + "\": \"" + g.name + "\""
  }

  /** `goalsStr`. */
  function GoalsText(goals: seq<SavingGoal>): string
  {
    Join(Map(goals, GoalItem), ", ")
  }

  /** The goal list is empty exactly when there are no goals. */
  lemma GoalsTextEmpty(goals: seq<SavingGoal>)
    ensures GoalsText(goals) == "" <==> goals == []
  {
    var items := Map(goals, GoalItem);
    forall i | 0 <= i < |items| ensures items[i] != "" {
      assert items[i][0] == 'I';
    }
    JoinEmpty(items, ", ");
  }

  /** The list of two runs of goals is their lists joined by ", ", so every
      goal appears once, in order. */
  lemma GoalsTextAppend(a: seq<SavingGoal>, b: seq<SavingGoal>)
    requires a != [] && b != []
    ensures GoalsText(a + b) == GoalsText(a) + ", " + GoalsText(b)
  {
    assert Map(a + b, GoalItem) == Map(a, GoalItem) + Map(b, GoalItem);
    JoinAppend(Map(a, GoalItem), Map(b, GoalItem), ", ");
  }

  /** The parts of the prompt that come from the app's data. */
  datatype Request = Request(categories: string, goals: string, input: string)

  /** What `parseAIInput` did: the request it sent, if any, and what it returned. */
  datatype ParseOutcome = ParseOutcome(sent: Option<Request>, result: Option<CommandResult>)

  /** `parseAIInput`: no key means no request and null; a failed request or
      an empty reply means null; otherwise the cleaned reply is parsed. */
  function ParseAIInput(apiKey: string, input: string, categories: seq<string>, goals: seq<SavingGoal>,
                        reply: Reply, decode: string -> Option<CommandResult>): (r: ParseOutcome)
    ensures apiKey == "" ==> r.sent.None? && r.result.None?
    ensures apiKey != "" ==> r.sent == Some(Request(Join(categories, ", "), GoalsText(goals), input))
    ensures r.result.Some? <==> apiKey != "" && reply.Answered? && reply.text != "" && decode(Cleanup(reply.text)).Some?
    ensures r.result.Some? ==> r.result == decode(Cleanup(reply.text))
  {
    if apiKey == "" then ParseOutcome(None, None)
    else
      var sent := Some(Request(Join(categories, ", "), GoalsText(goals), input));
      match reply
      case Failed => ParseOutcome(sent, None)
      case Answered(text) =>
        if text == "" then ParseOutcome(sent, None)
        else ParseOutcome(sent, decode(Cleanup(text)))
  }

  // ---------------------------------------------------------------------
  // getFinancialAdvice

  const NoKeyAdvice: string := "عفواً، مفتاح API غير موجود. تأكد من إعدادات التطبيق."
  const EmptyReplyAdvice: string := "عفواً، الشبكة وحشة، جرب كمان شوية!"
  const FailedAdvice: string := "عفواً، حدث خطأ أثناء الاتصال بالمستشار الذكي."

  /** The figures the advice prompt is built from. */
  datatype Summary = Summary(totalIncome: real, totalExpense: real, top: seq<Slice>, activeGoals: nat)

  /** `currentMonthTx`. */
  function MonthOf(txs: seq<Transaction>, now: Stamp): seq<Transaction>
  {
    Filter(txs, Ledger.InMonthOf(now))
  }

  /** The first three entries by amount, largest first. */
  function TopCategories(entries: seq<Slice>): seq<Slice>
  {
    var sorted := SortDesc(entries, SliceValue);
    if |sorted| <= 3 then sorted else sorted[..3]
  }

  /** At most three entries, largest first, each one of the given entries,
      and none of the entries left out is larger than any entry kept. */
  lemma TopCategoriesSpec(entries: seq<Slice>)
    ensures |TopCategories(entries)| == if |entries| < 3 then |entries| else 3
    ensures Descending(TopCategories(entries), SliceValue)
    ensures forall i :: 0 <= i < |TopCategories(entries)| ==> TopCategories(entries)[i] in entries
    ensures forall x, i :: x in entries && x !in TopCategories(entries) && 0 <= i < |TopCategories(entries)| ==>
              x.value <= TopCategories(entries)[i].value
  {
    var sorted := SortDesc(entries, SliceValue);
    var top := TopCategories(entries);
    SortDescFacts(entries, SliceValue);
    assert forall i :: 0 <= i < |top| ==> top[i] == sorted[i];
    forall i | 0 <= i < |top| ensures top[i] in entries {
      assert top[i] in multiset(sorted);
    }
    forall x, i | x in entries && x !in top && 0 <= i < |top| ensures x.value <= top[i].value {
      assert x in multiset(sorted);
      var k :| 0 <= k < |sorted| && sorted[k] == x;
      assert k >= |top|;
    }
  }

  /** What the prompt is told: the month's income and expense totals, its three
      largest expense categories, and the number of goals. */
  function Summarise(txs: seq<Transaction>, goals: seq<SavingGoal>, now: Stamp): Summary
  {
    var month := MonthOf(txs, now);
    Summary(TotalIncome(month), TotalExpense(month), TopCategories(PieData(month)), |goals|)
  }

  /** The summary reads only the transactions dated in the current month and
      year: summarising those alone gives the same figures. */
  lemma SummariseMonthOnly(txs: seq<Transaction>, goals: seq<SavingGoal>, now: Stamp)
    ensures Summarise(MonthOf(txs, now), goals, now) == Summarise(txs, goals, now)
  {
    FilterAll(MonthOf(txs, now), Ledger.InMonthOf(now));
  }

  /** The entries of an object whose keys are `keys`, in that order. */
  function Entries(totals: map<string, real>, keys: seq<string>): seq<Slice>
    requires forall i :: 0 <= i < |keys| ==> keys[i] in totals
  {
    if keys == [] then [] else [Slice(keys[0], totals[keys[0]])] + Entries(totals, keys[1..])
  }

  /** An object holding a grouping's values under its keys lists the grouping back. */
  lemma {:induction false} EntriesOfGroup(totals: map<string, real>, g: seq<Slice>)
    requires NoDup(Names(g))
    requires forall i :: 0 <= i < |g| ==> g[i].name in totals && totals[g[i].name] == g[i].value
    ensures forall i :: 0 <= i < |Names(g)| ==> Names(g)[i] in totals
    ensures Entries(totals, Names(g)) == g
  {
    if g != [] {
      assert Names(g)[1..] == Names(g[1..]);
      assert NoDup(Names(g[1..])) by {
        forall a, b | 0 <= a < b < |g| - 1 ensures Names(g[1..])[a] != Names(g[1..])[b] {
          assert Names(g[1..])[a] == Names(g)[a + 1] && Names(g[1..])[b] == Names(g)[b + 1];
        }
      }
      EntriesOfGroup(totals, g[1..]);
      assert g == [g[0]] + g[1..];
    }
  }

  /** One more transaction extends the grouping of a prefix by one `AddTo`. */
  lemma GroupStep(s: seq<Transaction>, i: int)
    requires 0 <= i < |s|
    ensures Group(s[..i + 1]) == AddTo(Group(s[..i]), s[i].category, s[i].amount)
  {
    assert s[..i + 1][..i] == s[..i];
  }

  /** `totals` is the object form of the grouping `g`: the same keys, and
      under each key the grouping's value. */
  ghost predicate Mirrors(totals: map<string, real>, g: seq<Slice>)
  {
    (forall k :: k in totals <==> k in Names(g)) &&
    (forall k :: k in totals ==> totals[k] == Lookup(g, k))
  }

  /** `acc[c] = (acc[c] || 0) + amount`. */
  function Accumulate(totals: map<string, real>, c: string, amount: real): map<string, real>
  {
    totals[c := (if c in totals then totals[c] else 0.0) + amount]
  }

  /** An object that mirrors a grouping still mirrors it after both add the
      same amount to the same key. */
  lemma MirrorStep(g: seq<Slice>, totals: map<string, real>, c: string, amount: real)
    requires Mirrors(totals, g)
    ensures Mirrors(Accumulate(totals, c, amount), AddTo(g, c, amount))
  {
    AddToNames(g, c, amount);
    if c !in totals {
      LookupAbsent(g, c);
    }
    forall k {
      AddToLookup(g, c, amount, k);
    }
  }

  /** The `forEach` that fills `expensesByCategory`: for each expense or credit
      spending of the month, `acc[category] = (acc[category] || 0) + amount`.
      The keys come out in order of first occurrence, and each value is the
      category's total, as the chart's grouping computes it. */
  method ExpensesByCategory(month: seq<Transaction>) returns (totals: map<string, real>, keys: seq<string>)
    ensures keys == Names(PieData(month))
    ensures forall k :: k in totals <==> k in keys
    ensures forall i :: 0 <= i < |PieData(month)| ==> totals[PieData(month)[i].name] == PieData(month)[i].value
  {
    var spend := Filter(month, IsSpendingTx);
    totals := map[];
    keys := [];
    var i := 0;
    assert spend[..0] == [];
    while i < |spend|
      invariant 0 <= i <= |spend|
      invariant keys == Names(Group(spend[..i]))
      invariant Mirrors(totals, Group(spend[..i]))
    {
      ghost var before := Group(spend[..i]);
      var t := spend[i];
      GroupStep(spend, i);
      AddToNames(before, t.category, t.amount);
      MirrorStep(before, totals, t.category, t.amount);
      if t.category !in totals {
        keys := keys + [t.category];
      }
      totals := Accumulate(totals, t.category, t.amount);
      i := i + 1;
    }
    assert spend[..i] == spend;
    MirrorGroup(spend, totals);
  }

  /** An object mirroring the whole grouping holds each slice's value under its name. */
  lemma MirrorGroup(spend: seq<Transaction>, totals: map<string, real>)
    requires Mirrors(totals, Group(spend))
    ensures forall i :: 0 <= i < |Group(spend)| ==> Group(spend)[i].name in totals && totals[Group(spend)[i].name] == Group(spend)[i].value
  {
    GroupNames(spend);
    var g := Group(spend);
    forall j | 0 <= j < |g| ensures g[j].name in totals && totals[g[j].name] == g[j].value {
      assert Names(g)[j] == g[j].name;
      LookupAt(g, j);
    }
  }

  /** `getFinancialAdvice`: the fixed apology without a key; otherwise the
      month is summarised for the prompt and the reply text is returned, with
      one apology for an empty reply and another for a failed request. The
      budgets it is given are not read. */
  method GetFinancialAdvice(apiKey: string, txs: seq<Transaction>, budgets: seq<Budget>, goals: seq<SavingGoal>,
                            now: Stamp, reply: Reply) returns (advice: string, asked: Option<Summary>)
    ensures apiKey == "" ==> advice == NoKeyAdvice && asked.None?
    ensures apiKey != "" ==> asked == Some(Summarise(txs, goals, now))
    ensures apiKey != "" ==> advice == match reply
                                       case Failed => FailedAdvice
                                       case Answered(text) => if text == "" then EmptyReplyAdvice else text
  {
    if apiKey == "" {
      return NoKeyAdvice, None;
    }
    var month := MonthOf(txs, now);
    var totalIncome := TotalIncome(month);
    var totalExpense := TotalExpense(month);
    var totals, keys := ExpensesByCategory(month);
    GroupNames(Filter(month, IsSpendingTx));
    EntriesOfGroup(totals, PieData(month));
    var top := TopCategories(Entries(totals, keys));
    asked := Some(Summary(totalIncome, totalExpense, top, |goals|));
    match reply
    case Failed =>
      advice := FailedAdvice;
    case Answered(text) =>
      advice := if text == "" then EmptyReplyAdvice else text;
  }
}
