/** The dashboard repository: income and expense totals over a period and
    their breakdown per category, in the order the categories are first
    met. */
module Dashboard {

  import opened Common
  import opened Calendar
  import opened Seqs
  import opened Store

  /** One entry of the category map: the running income and expenses. */
  datatype CategoryTotals = CategoryTotals(category: string, income: Cents, expenses: Cents)

  datatype BreakdownEntry = BreakdownEntry(category: string, income: Cents, expenses: Cents, net: Cents)

  datatype Metrics = Metrics(
    totalIncome: Cents,
    totalExpenses: Cents,
    netBalance: Cents,
    categoryBreakdown: seq<BreakdownEntry>)

  // ---------------------------------------------------------------------
  // The period window

  /** The `createdAt` range of the query: the month when month and year are
      truthy, the year when only the year is, none otherwise. */
  function PeriodWindow(month: Option<int>, year: Option<int>): Option<(Moment, Moment)>
  {
    if Given(month) && Given(year) then
      Some((LocalMidnight(year.value, month.value - 1, 1), LocalMidnight(year.value, month.value, 1)))
    else if Given(year) then
      Some((LocalMidnight(year.value, 0, 1), LocalMidnight(year.value + 1, 0, 1)))
    else None
  }

  predicate InWindow(window: Option<(Moment, Moment)>, t: Transaction)
  {
    window.None? || InRange(t.createdAt, window.value.0, window.value.1)
  }

  /** The query's `where`: only the window, no owner. */
  function WindowRows(window: Option<(Moment, Moment)>): Transaction -> bool
  {
    (t: Transaction) => InWindow(window, t)
  }

  /** The window holds exactly the transactions created in the requested
      calendar month, or year, or all of them. */
  lemma PeriodWindowMeaning(t: Transaction, month: Option<int>, year: Option<int>)
    ensures Given(month) && Given(year) && 1 <= month.value <= 12 ==>
      (InWindow(PeriodWindow(month, year), t) <==>
         t.createdAt.date.year == ConstructorYear(year.value) && t.createdAt.date.month == month.value)
    ensures !(Given(month) && Given(year)) && Given(year) && year.value != 99 && year.value != -1 ==>
      (InWindow(PeriodWindow(month, year), t) <==> t.createdAt.date.year == ConstructorYear(year.value))
    ensures !Given(year) ==> InWindow(PeriodWindow(month, year), t)
  {
    if Given(month) && Given(year) && 1 <= month.value <= 12 {
      MonthWindowExact(t.createdAt, year.value, month.value);
    } else if !(Given(month) && Given(year)) && Given(year) && year.value != 99 && year.value != -1 {
      YearWindowExact(t.createdAt, year.value);
    }
  }

  // ---------------------------------------------------------------------
  // Totals: the reference definitions

  function IncomeRows(): Transaction -> bool { (t: Transaction) => t.kind == Income }
  function ExpenseRows(): Transaction -> bool { (t: Transaction) => t.kind == Expense }

  function TotalIncome(ts: seq<Transaction>): Cents { SumOf(Filter(ts, IncomeRows()), TransactionAmount) }
  function TotalExpenses(ts: seq<Transaction>): Cents { SumOf(Filter(ts, ExpenseRows()), TransactionAmount) }

  lemma TotalsSnoc(ts: seq<Transaction>, t: Transaction)
    ensures TotalIncome(ts + [t]) == TotalIncome(ts) + (if t.kind == Income then t.amount else 0)
    ensures TotalExpenses(ts + [t]) == TotalExpenses(ts) + (if t.kind == Expense then t.amount else 0)
  {
    FilterSumSnoc(ts, t, IncomeRows(), TransactionAmount);
    FilterSumSnoc(ts, t, ExpenseRows(), TransactionAmount);
  }

  lemma TotalsPrefix(rows: seq<Transaction>, i: nat)
    requires i < |rows|
    ensures TotalIncome(rows[..i + 1]) == TotalIncome(rows[..i]) + (if rows[i].kind == Income then rows[i].amount else 0)
    ensures TotalExpenses(rows[..i + 1]) == TotalExpenses(rows[..i]) + (if rows[i].kind == Expense then rows[i].amount else 0)
  {
    assert rows[..i + 1] == rows[..i] + [rows[i]];
    TotalsSnoc(rows[..i], rows[i]);
  }

  // ---------------------------------------------------------------------
  // The category map

  /** `transaction.category || 'Uncategorized'`. */
  function GroupName(t: Transaction): (name: string)
    ensures t.category.None? || t.category == Some("") ==> name == "Uncategorized"
    ensures t.category.Some? && t.category.value != "" ==> name == t.category.value
  {
    if t.category.Some? && t.category.value != "" then t.category.value else "Uncategorized"
  }

  function Named(name: string): CategoryTotals -> bool
  {
    (e: CategoryTotals) => e.category == name
  }

  /** `categoryMap.has(name)`, as the position of its entry. */
  function KeyIndex(entries: seq<CategoryTotals>, name: string): Option<nat>
  {
    FirstIndex(entries, Named(name))
  }

  /** `if (!categoryMap.has(name)) categoryMap.set(name, { 0, 0 })`: a new
      key goes to the end of the map's insertion order. */
  function WithKey(entries: seq<CategoryTotals>, name: string): (r: seq<CategoryTotals>)
    ensures KeyIndex(r, name).Some?
  {
    if KeyIndex(entries, name).None? then
      FirstIndexSnoc(entries, CategoryTotals(name, 0, 0), Named(name));
      entries + [CategoryTotals(name, 0, 0)]
    else entries
  }

  /** The entry after adding one transaction's amount to its column. */
  function Credit(e: CategoryTotals, t: Transaction): CategoryTotals
  {
    if t.kind == Income then e.(income := e.income + t.amount)
    else if t.kind == Expense then e.(expenses := e.expenses + t.amount)
    else e
  }

  /** One iteration of the loop on the category map. */
  function Accumulate(entries: seq<CategoryTotals>, t: Transaction): seq<CategoryTotals>
  {
    var e := WithKey(entries, GroupName(t));
    var k := KeyIndex(e, GroupName(t)).value;
    e[k := Credit(e[k], t)]
  }

  /** The category map after the loop over `ts`, in insertion order. */
  function Breakdown(ts: seq<Transaction>): seq<CategoryTotals>
  {
    if ts == [] then [] else Accumulate(Breakdown(ts[..|ts| - 1]), ts[|ts| - 1])
  }

  function ToEntry(e: CategoryTotals): (r: BreakdownEntry)
    ensures r.category == e.category && r.income == e.income && r.expenses == e.expenses
    ensures r.net == r.income - r.expenses
  {
    BreakdownEntry(e.category, e.income, e.expenses, e.income - e.expenses)
  }

  /** `Array.from(categoryMap.entries()).map(...)`. */
  function Entries(entries: seq<CategoryTotals>): (r: seq<BreakdownEntry>)
    ensures |r| == |entries|
    ensures forall i :: 0 <= i < |r| ==> r[i] == ToEntry(entries[i])
  {
    seq(|entries|, i requires 0 <= i < |entries| => ToEntry(entries[i]))
  }

  // ---------------------------------------------------------------------
  // getMetrics

  /** `getMetrics`: one pass over every stored transaction of the window,
      whoever owns it. */
  method GetMetrics(transactions: seq<Transaction>, month: Option<int>, year: Option<int>) returns (m: Metrics)
    ensures var rows := Filter(transactions, WindowRows(PeriodWindow(month, year)));
      && m.totalIncome == TotalIncome(rows)
      && m.totalExpenses == TotalExpenses(rows)
      && m.netBalance == m.totalIncome - m.totalExpenses
      && m.categoryBreakdown == Entries(Breakdown(rows))
  {
    var rows := Filter(transactions, WindowRows(PeriodWindow(month, year)));
    var totalIncome, totalExpenses, categoryMap := Tally(rows);
    m := Metrics(totalIncome, totalExpenses, totalIncome - totalExpenses, Entries(categoryMap));
  }

  /** The `for` loop of `getMetrics`, with its running totals and its
      category map. */
  method Tally(rows: seq<Transaction>) returns (totalIncome: Cents, totalExpenses: Cents, categoryMap: seq<CategoryTotals>)
    ensures totalIncome == TotalIncome(rows)
    ensures totalExpenses == TotalExpenses(rows)
    ensures categoryMap == Breakdown(rows)
  {
    totalIncome, totalExpenses, categoryMap := 0, 0, [];
    var i := 0;
    assert rows[..0] == [];
    while i < |rows|
      invariant 0 <= i <= |rows|
      invariant totalIncome == TotalIncome(rows[..i])
      invariant totalExpenses == TotalExpenses(rows[..i])
      invariant categoryMap == Breakdown(rows[..i])
    {
      totalIncome, totalExpenses := AddToTotals(rows, i, totalIncome, totalExpenses);
      BreakdownPrefix(rows, i);
      categoryMap := AddToCategory(categoryMap, rows[i]);
      i := i + 1;
    }
    assert rows[..i] == rows;
  }

  /** The loop's totals update: an income or an expense adds its amount to
      its own total; any other type to neither. */
  method AddToTotals(rows: seq<Transaction>, i: nat, totalIncome: Cents, totalExpenses: Cents)
    returns (income: Cents, expenses: Cents)
    requires i < |rows|
    requires totalIncome == TotalIncome(rows[..i]) && totalExpenses == TotalExpenses(rows[..i])
    ensures income == TotalIncome(rows[..i + 1]) && expenses == TotalExpenses(rows[..i + 1])
  {
    var t := rows[i];
    TotalsPrefix(rows, i);
    income, expenses := totalIncome, totalExpenses;
    if t.kind == Income {
      income := income + t.amount;
    } else if t.kind == Expense {
      expenses := expenses + t.amount;
    }
  }

  /** The loop's map update: create the entry on first sight, then add
      the amount to its income or expenses. */
  method AddToCategory(categoryMap: seq<CategoryTotals>, t: Transaction) returns (r: seq<CategoryTotals>)
    ensures r == Accumulate(categoryMap, t)
  {
    var name := GroupName(t);
    r := categoryMap;
    if KeyIndex(r, name).None? {
      r := r + [CategoryTotals(name, 0, 0)];
    }
    assert r == WithKey(categoryMap, name);
    var k := KeyIndex(r, name).value;
    r := r[k := Credit(r[k], t)];
  }

  // ---------------------------------------------------------------------
  // Properties of the breakdown

  function EntryName(e: CategoryTotals): string { e.category }
  function EntryIncome(e: CategoryTotals): int { e.income }
  function EntryExpenses(e: CategoryTotals): int { e.expenses }

  /** What the map is after one more transaction. */
  lemma AccumulateShape(entries: seq<CategoryTotals>, t: Transaction)
    ensures var r := Accumulate(entries, t);
      match KeyIndex(entries, GroupName(t))
      case None =>
        r == entries + [Credit(CategoryTotals(GroupName(t), 0, 0), t)]
      case Some(k) =>
        r == entries[k := Credit(entries[k], t)]
  {
    var name := GroupName(t);
    if KeyIndex(entries, name).None? {
      FirstIndexSnoc(entries, CategoryTotals(name, 0, 0), Named(name));
    }
  }

  lemma CreditKeepsName(e: CategoryTotals, t: Transaction)
    ensures Credit(e, t).category == e.category
  {
  }

  lemma BreakdownSnoc(init: seq<Transaction>, t: Transaction)
    ensures Breakdown(init + [t]) == Accumulate(Breakdown(init), t)
  {
    assert (init + [t])[..|init|] == init;
  }

  lemma BreakdownPrefix(rows: seq<Transaction>, i: nat)
    requires i < |rows|
    ensures Breakdown(rows[..i + 1]) == Accumulate(Breakdown(rows[..i]), rows[i])
  {
    assert rows[..i + 1] == rows[..i] + [rows[i]];
    BreakdownSnoc(rows[..i], rows[i]);
  }

  /** The map's keys are exactly the group names of the transactions. */
  lemma {:induction false} BreakdownKeys(ts: seq<Transaction>)
    ensures forall name :: KeyIndex(Breakdown(ts), name).Some? <==> exists j :: 0 <= j < |ts| && GroupName(ts[j]) == name
  {
    if ts != [] {
      var init, t := ts[..|ts| - 1], ts[|ts| - 1];
      BreakdownKeys(init);
      var b := Breakdown(init);
      AccumulateShape(b, t);
      var r := Accumulate(b, t);
      assert r == Breakdown(ts);
      forall name ensures KeyIndex(r, name).Some? <==> exists j :: 0 <= j < |ts| && GroupName(ts[j]) == name {
        assert (exists j :: 0 <= j < |init| && GroupName(init[j]) == name) <==>
               (exists j :: 0 <= j < |ts| - 1 && GroupName(ts[j]) == name) by {
          assert forall j :: 0 <= j < |init| ==> init[j] == ts[j];
        }
        KeyIndexStep(b, t, name);
      }
    }
  }

  /** Where a name sits after one step: where it was, or at the end when
      it is the new transaction's group. */
  lemma KeyIndexStep(b: seq<CategoryTotals>, t: Transaction, name: string)
    ensures KeyIndex(Accumulate(b, t), name)
         == (if KeyIndex(b, name).Some? then KeyIndex(b, name) else if name == GroupName(t) then Some(|b|) else None)
  {
    AccumulateShape(b, t);
    match KeyIndex(b, GroupName(t))
    case None =>
      FirstIndexSnoc(b, Credit(CategoryTotals(GroupName(t), 0, 0), t), Named(name));
    case Some(k) =>
      CreditKeepsName(b[k], t);
      FirstIndexUpdate(b, k, Credit(b[k], t), Named(name));
  }

  /** Each category appears once in the breakdown. */
  lemma {:induction false} BreakdownDistinct(ts: seq<Transaction>)
    ensures DistinctBy(Breakdown(ts), EntryName)
  {
    if ts != [] {
      var init, t := ts[..|ts| - 1], ts[|ts| - 1];
      BreakdownDistinct(init);
      var b := Breakdown(init);
      AccumulateShape(b, t);
      var r := Accumulate(b, t);
      assert r == Breakdown(ts);
      match KeyIndex(b, GroupName(t))
      case None =>
        forall i | 0 <= i < |b| ensures EntryName(b[i]) != EntryName(Credit(CategoryTotals(GroupName(t), 0, 0), t)) {
          assert !Named(GroupName(t))(b[i]);
        }
        AppendDistinct(b, Credit(CategoryTotals(GroupName(t), 0, 0), t), EntryName);
      case Some(k) =>
        CreditKeepsName(b[k], t);
        assert forall j :: 0 <= j < |b| ==> EntryName(r[j]) == EntryName(b[j]);
    }
  }

  /** The group sums, the reference definition of one map entry. */
  function GroupIncomeRows(name: string): Transaction -> bool
  {
    (t: Transaction) => GroupName(t) == name && t.kind == Income
  }

  function GroupExpenseRows(name: string): Transaction -> bool
  {
    (t: Transaction) => GroupName(t) == name && t.kind == Expense
  }

  function GroupIncome(ts: seq<Transaction>, name: string): Cents
  {
    SumOf(Filter(ts, GroupIncomeRows(name)), TransactionAmount)
  }

  function GroupExpenses(ts: seq<Transaction>, name: string): Cents
  {
    SumOf(Filter(ts, GroupExpenseRows(name)), TransactionAmount)
  }

  lemma GroupSnoc(ts: seq<Transaction>, t: Transaction, name: string)
    ensures GroupIncome(ts + [t], name)
         == GroupIncome(ts, name) + (if GroupName(t) == name && t.kind == Income then t.amount else 0)
    ensures GroupExpenses(ts + [t], name)
         == GroupExpenses(ts, name) + (if GroupName(t) == name && t.kind == Expense then t.amount else 0)
  {
    FilterSumSnoc(ts, t, GroupIncomeRows(name), TransactionAmount);
    FilterSumSnoc(ts, t, GroupExpenseRows(name), TransactionAmount);
  }

  predicate EntryMatches(ts: seq<Transaction>, e: CategoryTotals)
  {
    e.income == GroupIncome(ts, e.category) && e.expenses == GroupExpenses(ts, e.category)
  }

  /** A group name that never occurs sums to nothing. */
  lemma AbsentGroup(ts: seq<Transaction>, name: string)
    requires forall j :: 0 <= j < |ts| ==> GroupName(ts[j]) != name
    ensures GroupIncome(ts, name) == 0 && GroupExpenses(ts, name) == 0
  {
    FilterNone(ts, GroupIncomeRows(name));
    FilterNone(ts, GroupExpenseRows(name));
  }

  /** Every entry holds the income and the expenses of its category. */
  lemma {:induction false} BreakdownSums(ts: seq<Transaction>)
    ensures forall i :: 0 <= i < |Breakdown(ts)| ==> EntryMatches(ts, Breakdown(ts)[i])
  {
    if ts != [] {
      var init, t := ts[..|ts| - 1], ts[|ts| - 1];
      assert init + [t] == ts;
      BreakdownSums(init);
      BreakdownSnoc(init, t);
      forall i | 0 <= i < |Breakdown(ts)| ensures EntryMatches(ts, Breakdown(ts)[i]) {
        EntryStep(init, t, i);
      }
    }
  }

  /** One step keeps every entry equal to its group sums. */
  lemma EntryStep(init: seq<Transaction>, t: Transaction, i: nat)
    requires forall j :: 0 <= j < |Breakdown(init)| ==> EntryMatches(init, Breakdown(init)[j])
    requires i < |Accumulate(Breakdown(init), t)|
    ensures EntryMatches(init + [t], Accumulate(Breakdown(init), t)[i])
  {
    var b := Breakdown(init);
    var name := GroupName(t);
    AccumulateShape(b, t);
    var r := Accumulate(b, t);
    match KeyIndex(b, name)
    case None =>
      if i == |b| {
        BreakdownKeys(init);
        FreshEntryStep(init, t);
      } else {
        assert r[i] == b[i] && EntryMatches(init, b[i]);
        assert !Named(name)(b[i]);
        OtherEntryStep(init, t, b[i]);
      }
    case Some(k) =>
      assert Named(name)(b[k]);
      if i == k {
        SameEntryStep(init, t, b[k]);
      } else {
        BreakdownDistinct(init);
        assert r[i] == b[i] && EntryMatches(init, b[i]);
        assert EntryName(b[i]) != EntryName(b[k]);
        OtherEntryStep(init, t, b[i]);
      }
  }

  lemma FreshEntryStep(init: seq<Transaction>, t: Transaction)
    requires forall j :: 0 <= j < |init| ==> GroupName(init[j]) != GroupName(t)
    ensures EntryMatches(init + [t], Credit(CategoryTotals(GroupName(t), 0, 0), t))
  {
    AbsentGroup(init, GroupName(t));
    SameEntryStep(init, t, CategoryTotals(GroupName(t), 0, 0));
  }

  lemma OtherEntryStep(init: seq<Transaction>, t: Transaction, e: CategoryTotals)
    requires EntryMatches(init, e) && e.category != GroupName(t)
    ensures EntryMatches(init + [t], e)
  {
    GroupSnoc(init, t, e.category);
  }

  lemma SameEntryStep(init: seq<Transaction>, t: Transaction, e: CategoryTotals)
    requires EntryMatches(init, e) && e.category == GroupName(t)
    ensures EntryMatches(init + [t], Credit(e, t))
  {
    GroupSnoc(init, t, e.category);
    var c := Credit(e, t);
    if t.kind == Income {
      assert c.income == e.income + t.amount && c.expenses == e.expenses;
    } else if t.kind == Expense {
      assert c.income == e.income && c.expenses == e.expenses + t.amount;
    } else {
      assert c == e;
    }
  }

  /** The per-category incomes add up to `totalIncome` and the
      per-category expenses to `totalExpenses`. */
  lemma {:induction false} BreakdownTotals(ts: seq<Transaction>)
    ensures SumOf(Breakdown(ts), EntryIncome) == TotalIncome(ts)
    ensures SumOf(Breakdown(ts), EntryExpenses) == TotalExpenses(ts)
  {
    if ts != [] {
      var init, t := ts[..|ts| - 1], ts[|ts| - 1];
      assert init + [t] == ts;
      BreakdownTotals(init);
      TotalsStep(init, t);
    }
  }

  lemma TotalsStep(init: seq<Transaction>, t: Transaction)
    requires SumOf(Breakdown(init), EntryIncome) == TotalIncome(init)
    requires SumOf(Breakdown(init), EntryExpenses) == TotalExpenses(init)
    ensures SumOf(Breakdown(init + [t]), EntryIncome) == TotalIncome(init + [t])
    ensures SumOf(Breakdown(init + [t]), EntryExpenses) == TotalExpenses(init + [t])
  {
    TotalsSnoc(init, t);
    BreakdownSnoc(init, t);
    StepSums(Breakdown(init), t);
  }

  /** One step adds the transaction's amount to the column sums. */
  lemma StepSums(b: seq<CategoryTotals>, t: Transaction)
    ensures SumOf(Accumulate(b, t), EntryIncome) == SumOf(b, EntryIncome) + (if t.kind == Income then t.amount else 0)
    ensures SumOf(Accumulate(b, t), EntryExpenses) == SumOf(b, EntryExpenses) + (if t.kind == Expense then t.amount else 0)
  {
    AccumulateShape(b, t);
    match KeyIndex(b, GroupName(t))
    case None =>
      SumOfSnoc(b, Credit(CategoryTotals(GroupName(t), 0, 0), t), EntryIncome);
      SumOfSnoc(b, Credit(CategoryTotals(GroupName(t), 0, 0), t), EntryExpenses);
    case Some(k) =>
      SumOfUpdate(b, k, Credit(b[k], t), EntryIncome);
      SumOfUpdate(b, k, Credit(b[k], t), EntryExpenses);
  }

  /** `a` is first met strictly before `b` in `ts`. */
  predicate SeenBefore(ts: seq<Transaction>, a: string, b: string)
  {
    exists p :: 0 <= p < |ts| && GroupName(ts[p]) == a && forall q :: 0 <= q <= p ==> GroupName(ts[q]) != b
  }

  /** The breakdown lists the categories in the order they are first met. */
  lemma {:induction false} BreakdownOrder(ts: seq<Transaction>)
    ensures forall i, j :: 0 <= i < j < |Breakdown(ts)| ==> SeenBefore(ts, Breakdown(ts)[i].category, Breakdown(ts)[j].category)
  {
    if ts != [] {
      var init, t := ts[..|ts| - 1], ts[|ts| - 1];
      assert init + [t] == ts;
      BreakdownOrder(init);
      BreakdownSnoc(init, t);
      forall i, j | 0 <= i < j < |Breakdown(ts)| ensures SeenBefore(ts, Breakdown(ts)[i].category, Breakdown(ts)[j].category) {
        OrderStep(init, t, i, j);
      }
    }
  }

  /** One step keeps the entries in first-seen order. */
  lemma OrderStep(init: seq<Transaction>, t: Transaction, i: nat, j: nat)
    requires forall i, j :: 0 <= i < j < |Breakdown(init)| ==>
      SeenBefore(init, Breakdown(init)[i].category, Breakdown(init)[j].category)
    requires i < j < |Accumulate(Breakdown(init), t)|
    ensures SeenBefore(init + [t], Accumulate(Breakdown(init), t)[i].category, Accumulate(Breakdown(init), t)[j].category)
  {
    var b := Breakdown(init);
    var name := GroupName(t);
    AccumulateShape(b, t);
    var r := Accumulate(b, t);
    match KeyIndex(b, name)
    case None =>
      if j == |b| {
        CreditKeepsName(CategoryTotals(name, 0, 0), t);
        assert r[i] == b[i];
        assert KeyIndex(b, b[i].category).Some? by {
          assert Named(b[i].category)(b[i]);
        }
        BreakdownKeys(init);
        FreshComesLast(init, t, b[i].category);
      } else {
        assert r[i] == b[i] && r[j] == b[j];
        KeepsSeenBefore(init, t, b[i].category, b[j].category);
      }
    case Some(k) =>
      CreditKeepsName(b[k], t);
      assert r[i].category == b[i].category && r[j].category == b[j].category;
      KeepsSeenBefore(init, t, b[i].category, b[j].category);
  }

  /** A group met for the first time comes after every group met before. */
  lemma FreshComesLast(init: seq<Transaction>, t: Transaction, a: string)
    requires exists p :: 0 <= p < |init| && GroupName(init[p]) == a
    requires forall j :: 0 <= j < |init| ==> GroupName(init[j]) != GroupName(t)
    ensures SeenBefore(init + [t], a, GroupName(t))
  {
    var ts := init + [t];
    var p :| 0 <= p < |init| && GroupName(init[p]) == a;
    assert forall q :: 0 <= q < |init| ==> ts[q] == init[q];
    assert GroupName(ts[p]) == a;
  }

  /** Appending a transaction keeps what was seen before. */
  lemma KeepsSeenBefore(init: seq<Transaction>, t: Transaction, a: string, b: string)
    requires SeenBefore(init, a, b)
    ensures SeenBefore(init + [t], a, b)
  {
    var ts := init + [t];
    var p :| 0 <= p < |init| && GroupName(init[p]) == a && forall q :: 0 <= q <= p ==> GroupName(init[q]) != b;
    assert forall q :: 0 <= q < |init| ==> ts[q] == init[q];
    assert GroupName(ts[p]) == a;
  }
}
