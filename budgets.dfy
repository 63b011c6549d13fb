/** The budget repository: the budget table's writes, the period-filtered
    listing and the progress of each budget over its calendar month. */
module Budgets {

  import opened Common
  import opened Calendar
  import opened Seqs
  import opened Store

  /** The validated body of a create request. */
  datatype CreateBudgetInput = CreateBudgetInput(categoryId: Id, amount: Cents, month: int, year: int)

  /** The validated body of an update request: only the amount, optional. */
  datatype BudgetUpdate = BudgetUpdate(amount: Option<Cents>)

  datatype BudgetProgress = BudgetProgress(budget: Budget, spent: Cents, remaining: Cents, percentage: real)

  // ---------------------------------------------------------------------
  // Writes

  /** Some budget of the table already has this (owner, category, month,
      year). */
  predicate PeriodTaken(budgets: seq<Budget>, key: (UserId, Id, int, int))
  {
    exists i :: 0 <= i < |budgets| && BudgetPeriodKey(budgets[i]) == key
  }

  /** `createBudget`: the row is owned by the caller; the category must
      exist, and a second budget for the same category and period is a
      conflict (the unique constraint behind the use case's 409). */
  method CreateBudget(db: Database, owner: UserId, data: CreateBudgetInput, now: Moment) returns (r: Result<Budget>)
    requires db.Valid()
    modifies db`budgets, db`nextId
    ensures db.Valid()
    ensures !HasCategory(db.categories, data.categoryId) ==>
      r == Err(MissingReference("category")) && db.budgets == old(db.budgets) && db.nextId == old(db.nextId)
    ensures (HasCategory(db.categories, data.categoryId) &&
             PeriodTaken(old(db.budgets), (owner, data.categoryId, data.month, data.year))) ==>
      r == Err(Conflict("budget")) && db.budgets == old(db.budgets) && db.nextId == old(db.nextId)
    ensures (HasCategory(db.categories, data.categoryId) &&
             !PeriodTaken(old(db.budgets), (owner, data.categoryId, data.month, data.year))) ==>
      && r == Ok(Budget(old(db.nextId), owner, data.categoryId, data.amount, data.month, data.year, now))
      && db.budgets == old(db.budgets) + [r.value]
  {
    if !HasCategory(db.categories, data.categoryId) {
      r := Err(MissingReference("category"));
      return;
    }
    var key := (owner, data.categoryId, data.month, data.year);
    var clash := FirstIndex(db.budgets, (b: Budget) => BudgetPeriodKey(b) == key);
    if clash.Some? {
      r := Err(Conflict("budget"));
      return;
    }
    var id := db.FreshId();
    var b := Budget(id, owner, data.categoryId, data.amount, data.month, data.year, now);
    AppendFresh(db.budgets, b, BudgetKey, id);
    AppendDistinct(db.budgets, b, BudgetPeriodKey);
    db.budgets := db.budgets + [b];
    r := Ok(b);
  }

  /** The `where: { id }` of update and delete: no owner filter. */
  function BudgetWithId(id: Id): Budget -> bool
  {
    (b: Budget) => b.id == id
  }

  /** An update changes the amount when it carries one, and nothing else. */
  function ApplyBudgetUpdate(b: Budget, u: BudgetUpdate): (r: Budget)
    ensures r.amount == (if u.amount.Some? then u.amount.value else b.amount)
    ensures r.(amount := b.amount) == b
  {
    if u.amount.Some? then b.(amount := u.amount.value) else b
  }

  /** `updateBudget`: fails when no budget has that id. */
  method UpdateBudget(db: Database, id: Id, data: BudgetUpdate) returns (r: Result<Budget>)
    requires db.Valid()
    modifies db`budgets
    ensures db.Valid()
    ensures match FirstIndex(old(db.budgets), BudgetWithId(id))
      case None => r == Err(NotFound("budget")) && db.budgets == old(db.budgets)
      case Some(i) => r == Ok(ApplyBudgetUpdate(old(db.budgets)[i], data)) && db.budgets == old(db.budgets)[i := r.value]
  {
    match FirstIndex(db.budgets, BudgetWithId(id))
    case None =>
      r := Err(NotFound("budget"));
    case Some(i) =>
      var updated := ApplyBudgetUpdate(db.budgets[i], data);
      ReplaceKeepsKeys(db.budgets, i, updated, BudgetKey, db.nextId);
      assert forall k :: 0 <= k < |db.budgets| ==> BudgetPeriodKey(db.budgets[i := updated][k]) == BudgetPeriodKey(db.budgets[k]);
      db.budgets := db.budgets[i := updated];
      r := Ok(updated);
  }

  /** `deleteBudget`: fails when no budget has that id. */
  method DeleteBudget(db: Database, id: Id) returns (r: Result<()>)
    requires db.Valid()
    modifies db`budgets
    ensures db.Valid()
    ensures match FirstIndex(old(db.budgets), BudgetWithId(id))
      case None => r == Err(NotFound("budget")) && db.budgets == old(db.budgets)
      case Some(i) => r == Ok(()) && db.budgets == RemoveAt(old(db.budgets), i)
  {
    match FirstIndex(db.budgets, BudgetWithId(id))
    case None =>
      r := Err(NotFound("budget"));
    case Some(i) =>
      var before := db.budgets;
      RemoveKeepsKeys(before, i, BudgetKey, db.nextId);
      var after := RemoveAt(before, i);
      forall a, b | 0 <= a < b < |after| ensures BudgetPeriodKey(after[a]) != BudgetPeriodKey(after[b]) {
        var a', b' := if a < i then a else a + 1, if b < i then b else b + 1;
        assert after[a] == before[a'] && after[b] == before[b'];
      }
      forall k | 0 <= k < |after| ensures HasCategory(db.categories, after[k].categoryId) {
        assert after[k] == before[if k < i then k else k + 1];
      }
      db.budgets := after;
      r := Ok(());
  }

  // ---------------------------------------------------------------------
  // Listing

  /** The `where` that `getBudgets` builds: both fields when month and
      year are truthy, the year alone when only it is, no period filter
      otherwise. */
  function BudgetQueryRows(owner: UserId, month: Option<int>, year: Option<int>): Budget -> bool
  {
    (b: Budget) =>
      && b.userId == owner
      && (if Given(month) && Given(year) then b.month == month.value && b.year == year.value
          else if Given(year) then b.year == year.value
          else true)
  }

  /** `getBudgets`: the caller's budgets of the requested period, newest
      first. */
  function GetBudgets(budgets: seq<Budget>, owner: UserId, month: Option<int>, year: Option<int>): (r: seq<Budget>)
    ensures multiset(r) == multiset(Filter(budgets, BudgetQueryRows(owner, month, year)))
    ensures SortedBy(r, NewestFirst(BudgetCreatedAt))
    ensures Given(month) && Given(year) ==>
      forall b :: b in r <==> b in budgets && b.userId == owner && b.month == month.value && b.year == year.value
    ensures !Given(month) && Given(year) ==>
      forall b :: b in r <==> b in budgets && b.userId == owner && b.year == year.value
    ensures !Given(year) ==>
      forall b :: b in r <==> b in budgets && b.userId == owner
  {
    var rows := Filter(budgets, BudgetQueryRows(owner, month, year));
    var sorted := SortBy(rows, NewestFirst(BudgetCreatedAt));
    NewestFirstIsTotal(BudgetCreatedAt);
    SortBySorted(rows, NewestFirst(BudgetCreatedAt));
    assert forall b :: b in sorted <==> b in rows by {
      forall b ensures b in sorted <==> b in rows {
        assert b in sorted <==> b in multiset(sorted);
        assert b in rows <==> b in multiset(rows);
      }
    }
    sorted
  }

  // ---------------------------------------------------------------------
  // Progress

  /** `new Date(year, month - 1, 1)` and `new Date(year, month, 1)`. */
  function MonthStart(month: int, year: int): Moment { LocalMidnight(year, month - 1, 1) }
  function MonthEnd(month: int, year: int): Moment { LocalMidnight(year, month, 1) }

  /** The aggregate's `where`: the caller's expenses whose `category`
      column equals the budget's category name, created in the window. */
  predicate SpentRow(owner: UserId, name: string, month: int, year: int, t: Transaction)
  {
    && t.userId == owner
    && t.category == Some(name)
    && t.kind == Expense
    && InRange(t.createdAt, MonthStart(month, year), MonthEnd(month, year))
  }

  function SpentRows(owner: UserId, name: string, month: int, year: int): Transaction -> bool
  {
    (t: Transaction) => SpentRow(owner, name, month, year, t)
  }

  /** `Number(_sum.amount || 0)`. */
  function Spent(transactions: seq<Transaction>, owner: UserId, name: string, month: int, year: int): Cents
  {
    SumOf(Filter(transactions, SpentRows(owner, name, month, year)), TransactionAmount)
  }

  /** `spent / amount * 100`, or 0 when the budget amount is not positive. */
  function Percentage(spent: Cents, amount: Cents): real
  {
    if amount > 0 then (spent as real / amount as real) * 100.0 else 0.0
  }

  /** The period filter of `getBudgetProgress`: both fields always. */
  function PeriodBudgets(owner: UserId, month: int, year: int): Budget -> bool
  {
    (b: Budget) => b.userId == owner && b.month == month && b.year == year
  }

  predicate AllHaveCategory(budgets: seq<Budget>, categories: seq<Category>)
  {
    forall i :: 0 <= i < |budgets| ==> HasCategory(categories, budgets[i].categoryId)
  }

  /** The result entry of one budget. */
  function ProgressOf(b: Budget, categories: seq<Category>, transactions: seq<Transaction>, owner: UserId, month: int, year: int)
    : (p: BudgetProgress)
    requires HasCategory(categories, b.categoryId)
    ensures p.budget == b && p.remaining == b.amount - p.spent
    ensures p.spent == Spent(transactions, owner, CategoryName(categories, b.categoryId), month, year)
    ensures p.percentage == Percentage(p.spent, b.amount)
  {
    var spent := Spent(transactions, owner, CategoryName(categories, b.categoryId), month, year);
    BudgetProgress(b, spent, b.amount - spent, Percentage(spent, b.amount))
  }

  /** `getBudgetProgress`: one entry per budget of the caller for that
      month and year, in table order (the fan-out keeps its input order). */
  function GetBudgetProgress(budgets: seq<Budget>, categories: seq<Category>, transactions: seq<Transaction>,
                             owner: UserId, month: int, year: int): (r: seq<BudgetProgress>)
    requires AllHaveCategory(budgets, categories)
    ensures AllHaveCategory(Filter(budgets, PeriodBudgets(owner, month, year)), categories)
    ensures var selected := Filter(budgets, PeriodBudgets(owner, month, year));
      && |r| == |selected|
      && forall i :: 0 <= i < |r| ==>
           && r[i].budget == selected[i]
           && r[i].budget.userId == owner && r[i].budget.month == month && r[i].budget.year == year
           && r[i].spent == Spent(transactions, owner, CategoryName(categories, selected[i].categoryId), month, year)
           && r[i].remaining == selected[i].amount - r[i].spent
           && r[i].percentage == Percentage(r[i].spent, selected[i].amount)
  {
    var selected := Filter(budgets, PeriodBudgets(owner, month, year));
    SelectedHaveCategory(budgets, categories, PeriodBudgets(owner, month, year));
    ProgressRows(selected, categories, transactions, owner, month, year)
  }

  /** The fan-out: one entry per selected budget, in order. */
  function ProgressRows(selected: seq<Budget>, categories: seq<Category>, transactions: seq<Transaction>,
                        owner: UserId, month: int, year: int): (r: seq<BudgetProgress>)
    requires AllHaveCategory(selected, categories)
    ensures |r| == |selected|
    ensures forall i :: 0 <= i < |r| ==> r[i] == ProgressOf(selected[i], categories, transactions, owner, month, year)
  {
    seq(|selected|, i requires 0 <= i < |selected| => ProgressOf(selected[i], categories, transactions, owner, month, year))
  }

  /** A selection of budgets that all name a category names one too. */
  lemma SelectedHaveCategory(budgets: seq<Budget>, categories: seq<Category>, p: Budget -> bool)
    requires AllHaveCategory(budgets, categories)
    ensures AllHaveCategory(Filter(budgets, p), categories)
  {
    var selected := Filter(budgets, p);
    forall i | 0 <= i < |selected| ensures HasCategory(categories, selected[i].categoryId) {
      var j :| 0 <= j < |budgets| && budgets[j] == selected[i];
    }
  }

  // ---------------------------------------------------------------------
  // Properties

  /** For a month from 1 to 12 of a year the constructor reads as given,
      `spent` sums exactly the caller's expenses of that category created
      in that calendar month. */
  lemma SpentIsCalendarMonth(transactions: seq<Transaction>, owner: UserId, name: string, month: int, year: int)
    requires 1 <= month <= 12 && ConstructorYear(year) == year
    ensures Spent(transactions, owner, name, month, year)
         == SumOf(Filter(transactions, (t: Transaction) =>
              t.userId == owner && t.category == Some(name) && t.kind == Expense
              && t.createdAt.date.year == year && t.createdAt.date.month == month), TransactionAmount)
  {
    var q := (t: Transaction) =>
      t.userId == owner && t.category == Some(name) && t.kind == Expense
      && t.createdAt.date.year == year && t.createdAt.date.month == month;
    forall i | 0 <= i < |transactions| ensures SpentRows(owner, name, month, year)(transactions[i]) == q(transactions[i]) {
      MonthWindowExact(transactions[i].createdAt, year, month);
    }
    FilterAgree(transactions, SpentRows(owner, name, month, year), q);
  }

  /** The December window ends at 1 January of the following year. */
  lemma DecemberWindow(year: int)
    ensures MonthStart(12, year) == Moment(Date(ConstructorYear(year), 12, 1), 0)
    ensures MonthEnd(12, year) == Moment(Date(ConstructorYear(year) + 1, 1, 1), 0)
  {
    MakeDateInMonth(ConstructorYear(year), 11, 1);
    MakeDateInMonth(ConstructorYear(year), 12, 1);
  }

  /** With no matching expense the budget has spent nothing. */
  lemma NothingSpent(transactions: seq<Transaction>, owner: UserId, name: string, month: int, year: int)
    requires forall i :: 0 <= i < |transactions| ==> !SpentRow(owner, name, month, year, transactions[i])
    ensures Spent(transactions, owner, name, month, year) == 0
  {
    FilterNone(transactions, SpentRows(owner, name, month, year));
  }

  /** A new transaction adds its amount to `spent` exactly when it is a
      matching expense of the window. */
  lemma SpentSnoc(transactions: seq<Transaction>, t: Transaction, owner: UserId, name: string, month: int, year: int)
    ensures Spent(transactions + [t], owner, name, month, year)
         == Spent(transactions, owner, name, month, year) + (if SpentRow(owner, name, month, year, t) then t.amount else 0)
  {
    var p := SpentRows(owner, name, month, year);
    FilterSnoc(transactions, t, p);
    if p(t) {
      SumOfSnoc(Filter(transactions, p), t, TransactionAmount);
    } else {
      assert Filter(transactions, p) + [] == Filter(transactions, p);
    }
  }

  /** Expenses have non-negative amounts, so `spent` is non-negative. */
  lemma SpentNonNegative(transactions: seq<Transaction>, owner: UserId, name: string, month: int, year: int)
    requires forall i :: 0 <= i < |transactions| ==> transactions[i].amount >= 0
    ensures Spent(transactions, owner, name, month, year) >= 0
  {
    var rows := Filter(transactions, SpentRows(owner, name, month, year));
    forall x | x in rows ensures TransactionAmount(x) >= 0 {
      var j :| 0 <= j < |transactions| && transactions[j] == x;
    }
    SumOfNonNegative(rows, TransactionAmount);
  }

  /** On a positive budget, the 80% mark is reached exactly when five
      times the spending is at least four times the amount. */
  lemma PercentageThreshold(spent: Cents, amount: Cents)
    requires amount > 0
    ensures Percentage(spent, amount) >= 80.0 <==> 5 * spent >= 4 * amount
  {
    var s, a := spent as real, amount as real;
    assert Percentage(spent, amount) * a == s * 100.0;
  }

  /** The percentage is not clamped: overspending shows above 100 and a
      negative remainder. */
  lemma Overspend(spent: Cents, amount: Cents)
    requires 0 < amount < spent
    ensures Percentage(spent, amount) > 100.0
    ensures amount - spent < 0
  {
    var s, a := spent as real, amount as real;
    assert Percentage(spent, amount) * a == s * 100.0;
  }

  /** A zero budget reports 0%, whatever was spent. */
  lemma ZeroBudget(spent: Cents)
    ensures Percentage(spent, 0) == 0.0
  {
  }

  /** 450 of 500 is 90% with 50 left; 600 of 500 is 120% with -100 left. */
  lemma ProgressExamples()
    ensures Percentage(450, 500) == 90.0 && 500 - 450 == 50
    ensures Percentage(600, 500) == 120.0 && 500 - 600 == -100
  {
  }
}
