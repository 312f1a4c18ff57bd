/** The aggregation of StatsChart.tsx: expenses grouped by category for the
    pie chart, and the income, expense and saving totals for the bar chart. */
module Stats {
  import opened Seqs
  import opened Types

  /** One `{ name, value }` entry of the pie chart. */
  datatype Slice = Slice(name: string, value: real)

  function SliceName(s: Slice): string
  {
    s.name
  }

  function SliceValue(s: Slice): real
  {
    s.value
  }

  function Names(acc: seq<Slice>): seq<string>
  {
    Map(acc, SliceName)
  }

  /** The value stored under a key of the accumulator object, `acc[key] || 0`. */
  function Lookup(acc: seq<Slice>, key: string): real
  {
    if acc == [] then 0.0
    else if acc[0].name == key then acc[0].value
    else Lookup(acc[1..], key)
  }

  /** `acc[category] = (acc[category] || 0) + amount` on an object whose keys
      keep the order in which they were first assigned. */
  function AddTo(acc: seq<Slice>, category: string, amount: real): seq<Slice>
  {
    if acc == [] then [Slice(category, amount)]
    else if acc[0].name == category then [Slice(category, acc[0].value + amount)] + acc[1..]
    else [acc[0]] + AddTo(acc[1..], category, amount)
  }

  /** The `reduce` that builds the accumulator, one transaction after another. */
  function Group(txs: seq<Transaction>): seq<Slice>
  {
    if txs == [] then []
    else AddTo(Group(txs[..|txs| - 1]), txs[|txs| - 1].category, txs[|txs| - 1].amount)
  }

  predicate IsSpendingTx(t: Transaction)
  {
    IsSpending(t.txType)
  }

  function CategoryIs(category: string): Transaction -> bool
  {
    (t: Transaction) => t.category == category
  }

  /** `pieData`: the expenses and credit spending, summed per category, in the
      order in which the categories first occur. The accumulator is modelled
      as a fresh map: JavaScript's listing of integer-like keys first and the
      keys a plain object inherits are not modelled. */
  function PieData(txs: seq<Transaction>): seq<Slice>
  {
    Group(Filter(txs, IsSpendingTx))
  }

  function IsIncomeTx(t: Transaction): bool
  {
    t.txType == Income
  }

  function IsSavingTx(t: Transaction): bool
  {
    t.txType == Saving
  }

  function TotalIncome(txs: seq<Transaction>): real
  {
    Sum(Filter(txs, IsIncomeTx), Amount)
  }

  function TotalExpense(txs: seq<Transaction>): real
  {
    Sum(Filter(txs, IsSpendingTx), Amount)
  }

  function TotalSavings(txs: seq<Transaction>): real
  {
    Sum(Filter(txs, IsSavingTx), Amount)
  }

  datatype BarKind = IncomeBar | ExpenseBar | SavingBar

  /** One bar: what it shows (its label is the translated name of the kind), its value and colour. */
  datatype Bar = Bar(kind: BarKind, value: real, fill: string)

  /** `barData`: income, expense and saving, always in that order. */
  function BarData(txs: seq<Transaction>): (r: seq<Bar>)
    ensures |r| == 3
    ensures r[0].kind == IncomeBar && r[1].kind == ExpenseBar && r[2].kind == SavingBar
    ensures r[0].value == TotalIncome(txs) && r[1].value == TotalExpense(txs) && r[2].value == TotalSavings(txs)
  {
    [Bar(IncomeBar, TotalIncome(txs), "#10b981"),
     Bar(ExpenseBar, TotalExpense(txs), "#f43f5e"),
     Bar(SavingBar, TotalSavings(txs), "#3b82f6")]
  }

  // ---------------------------------------------------------------------
  // The accumulator

  /** Adding to a key keeps the keys, appending the key when it is new. */
  lemma {:induction false} AddToNames(acc: seq<Slice>, category: string, amount: real)
    ensures Names(AddTo(acc, category, amount)) ==
            if category in Names(acc) then Names(acc) else Names(acc) + [category]
  {
    if acc != [] {
      AddToNames(acc[1..], category, amount);
      assert Names(acc) == [acc[0].name] + Names(acc[1..]);
      if acc[0].name != category {
        assert Names(AddTo(acc, category, amount)) == [acc[0].name] + Names(AddTo(acc[1..], category, amount));
      } else {
        assert Names(AddTo(acc, category, amount)) == [category] + Names(acc[1..]);
      }
    }
  }

  /** Adding to a key raises the value under that key and no other. */
  lemma {:induction false} AddToLookup(acc: seq<Slice>, category: string, amount: real, key: string)
    ensures Lookup(AddTo(acc, category, amount), key) == Lookup(acc, key) + (if key == category then amount else 0.0)
  {
    if acc != [] && acc[0].name != category {
      AddToLookup(acc[1..], category, amount, key);
      assert AddTo(acc, category, amount)[1..] == AddTo(acc[1..], category, amount);
    } else if acc != [] {
      assert AddTo(acc, category, amount)[1..] == acc[1..];
    }
  }

  /** Adding to a key raises the sum of all values by the amount. */
  lemma {:induction false} AddToSum(acc: seq<Slice>, category: string, amount: real)
    ensures Sum(AddTo(acc, category, amount), SliceValue) == Sum(acc, SliceValue) + amount
  {
    if acc != [] && acc[0].name != category {
      AddToSum(acc[1..], category, amount);
      assert AddTo(acc, category, amount)[1..] == AddTo(acc[1..], category, amount);
    } else if acc != [] {
      assert AddTo(acc, category, amount)[1..] == acc[1..];
    }
  }

  /** With distinct keys, looking a key up finds the value stored with it. */
  lemma {:induction false} LookupAt(acc: seq<Slice>, i: int)
    requires NoDup(Names(acc)) && 0 <= i < |acc|
    ensures Lookup(acc, acc[i].name) == acc[i].value
  {
    if i > 0 {
      assert Names(acc)[0] == acc[0].name && Names(acc)[i] == acc[i].name;
      assert NoDup(Names(acc[1..])) by {
        forall a, b | 0 <= a < b < |acc| - 1 ensures Names(acc[1..])[a] != Names(acc[1..])[b] {
          assert Names(acc[1..])[a] == Names(acc)[a + 1] && Names(acc[1..])[b] == Names(acc)[b + 1];
        }
      }
      LookupAt(acc[1..], i - 1);
    }
  }

  /** A key that was never assigned reads as 0. */
  lemma {:induction false} LookupAbsent(acc: seq<Slice>, key: string)
    requires key !in Names(acc)
    ensures Lookup(acc, key) == 0.0
  {
    if acc != [] {
      assert Names(acc) == [acc[0].name] + Names(acc[1..]);
      LookupAbsent(acc[1..], key);
    }
  }

  // ---------------------------------------------------------------------
  // The grouping

  lemma SplitLast(txs: seq<Transaction>, p: Transaction -> bool)
    requires txs != []
    ensures Sum(Filter(txs, p), Amount) ==
            Sum(Filter(txs[..|txs| - 1], p), Amount) + (if p(txs[|txs| - 1]) then txs[|txs| - 1].amount else 0.0)
  {
    var init := txs[..|txs| - 1];
    var last := txs[|txs| - 1];
    assert txs == init + [last];
    FilterAppend(init, [last], p);
    SumAppend(Filter(init, p), Filter([last], p), Amount);
  }

  function TxCategory(t: Transaction): string
  {
    t.category
  }

  /** The keys of the grouping are the categories of the transactions, each
      once, in order of first occurrence. */
  lemma GroupNames(txs: seq<Transaction>)
    ensures NoDup(Names(Group(txs)))
    ensures forall c :: c in Names(Group(txs)) <==> c in Map(txs, TxCategory)
  {
    GroupNoDup(txs);
    GroupMembers(txs);
  }

  lemma {:induction false} GroupMembers(txs: seq<Transaction>)
    ensures forall c :: c in Names(Group(txs)) <==> c in Map(txs, TxCategory)
  {
    if txs != [] {
      var init := txs[..|txs| - 1];
      var last := txs[|txs| - 1];
      GroupMembers(init);
      AddToNames(Group(init), last.category, last.amount);
      assert Group(txs) == AddTo(Group(init), last.category, last.amount);
      MapSnoc(txs, TxCategory);
      forall c ensures c in Names(Group(txs)) <==> c in Map(txs, TxCategory) {
        InSnoc(Map(init, TxCategory), last.category, c);
        InSnoc(Names(Group(init)), last.category, c);
      }
    }
  }

  lemma {:induction false} GroupNoDup(txs: seq<Transaction>)
    ensures NoDup(Names(Group(txs)))
  {
    if txs != [] {
      var init := txs[..|txs| - 1];
      var last := txs[|txs| - 1];
      GroupNoDup(init);
      AddToNames(Group(init), last.category, last.amount);
      assert Group(txs) == AddTo(Group(init), last.category, last.amount);
      if last.category !in Names(Group(init)) {
        NoDupSnoc(Names(Group(init)), last.category);
      }
    }
  }

  /** The value under each key is the sum of the amounts of that category. */
  lemma {:induction false} GroupLookup(txs: seq<Transaction>, key: string)
    ensures Lookup(Group(txs), key) == Sum(Filter(txs, CategoryIs(key)), Amount)
  {
    if txs != [] {
      var init := txs[..|txs| - 1];
      var last := txs[|txs| - 1];
      GroupLookup(init, key);
      AddToLookup(Group(init), last.category, last.amount, key);
      SplitLast(txs, CategoryIs(key));
    }
  }

  /** The values of the grouping add up to the sum of all amounts. */
  lemma {:induction false} GroupSum(txs: seq<Transaction>)
    ensures Sum(Group(txs), SliceValue) == Sum(txs, Amount)
  {
    if txs != [] {
      var init := txs[..|txs| - 1];
      var last := txs[|txs| - 1];
      GroupSum(init);
      AddToSum(Group(init), last.category, last.amount);
      assert txs == init + [last];
      SumAppend(init, [last], Amount);
    }
  }

  lemma {:induction false} GroupEmpty(txs: seq<Transaction>)
    ensures Group(txs) == [] <==> txs == []
  {
    if txs != [] {
      var init := txs[..|txs| - 1];
      AddToNames(Group(init), txs[|txs| - 1].category, txs[|txs| - 1].amount);
    }
  }

  // ---------------------------------------------------------------------
  // The chart

  /** The pie has one slice per category of expenses and credit spending,
      each category once; a slice's value is what that category's expenses
      and credit spending add up to. */
  lemma PieSpec(txs: seq<Transaction>)
    ensures NoDup(Names(PieData(txs)))
    ensures forall c :: c in Names(PieData(txs)) <==>
              exists i :: 0 <= i < |txs| && IsSpending(txs[i].txType) && txs[i].category == c
    ensures forall i :: 0 <= i < |PieData(txs)| ==>
              PieData(txs)[i].value == Sum(Filter(Filter(txs, IsSpendingTx), CategoryIs(PieData(txs)[i].name)), Amount)
  {
    var spend := Filter(txs, IsSpendingTx);
    GroupNames(spend);
    forall c | c in Names(PieData(txs))
      ensures exists i :: 0 <= i < |txs| && IsSpending(txs[i].txType) && txs[i].category == c
    {
      var cats := Map(spend, TxCategory);
      var k :| 0 <= k < |cats| && cats[k] == c;
      assert spend[k] in txs;
      var j :| 0 <= j < |txs| && txs[j] == spend[k];
    }
    forall i | 0 <= i < |txs| && IsSpending(txs[i].txType)
      ensures txs[i].category in Names(PieData(txs))
    {
      assert txs[i] in spend;
      var j :| 0 <= j < |spend| && spend[j] == txs[i];
      assert Map(spend, TxCategory)[j] == txs[i].category;
    }
    forall i | 0 <= i < |PieData(txs)|
      ensures PieData(txs)[i].value == Sum(Filter(spend, CategoryIs(PieData(txs)[i].name)), Amount)
    {
      LookupAt(PieData(txs), i);
      GroupLookup(spend, PieData(txs)[i].name);
    }
  }

  /** The pie's values add up to the total expense of the bar chart. */
  lemma PieTotal(txs: seq<Transaction>)
    ensures Sum(PieData(txs), SliceValue) == TotalExpense(txs)
  {
    GroupSum(Filter(txs, IsSpendingTx));
  }

  /** The chart shows its "no data" text exactly when there are no expenses
      and no credit spending. */
  lemma PieEmpty(txs: seq<Transaction>)
    ensures PieData(txs) == [] <==> forall i :: 0 <= i < |txs| ==> !IsSpending(txs[i].txType)
  {
    var spend := Filter(txs, IsSpendingTx);
    GroupEmpty(spend);
    if spend != [] {
      assert spend[0] in txs;
    }
  }

  /** What one transaction adds to each total: its amount to the income total
      when it is income, to the expense total when it is an expense or credit
      spending, to the saving total when it is a saving, and nothing otherwise. */
  lemma TotalsPrepend(t: Transaction, txs: seq<Transaction>)
    ensures TotalIncome([t] + txs) == TotalIncome(txs) + (if t.txType == Income then t.amount else 0.0)
    ensures TotalExpense([t] + txs) == TotalExpense(txs) + (if IsSpending(t.txType) then t.amount else 0.0)
    ensures TotalSavings([t] + txs) == TotalSavings(txs) + (if t.txType == Saving then t.amount else 0.0)
  {
    assert ([t] + txs)[1..] == txs;
    SumAppend(Filter([t], IsIncomeTx), Filter(txs, IsIncomeTx), Amount);
    SumAppend(Filter([t], IsSpendingTx), Filter(txs, IsSpendingTx), Amount);
    SumAppend(Filter([t], IsSavingTx), Filter(txs, IsSavingTx), Amount);
  }
}
