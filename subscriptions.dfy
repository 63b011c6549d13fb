/** The subscription repository: creating and listing subscriptions, and
    the daily materialisation of the subscriptions due today into pending
    expense transactions. */
module Subscriptions {

  import opened Common
  import opened Calendar
  import opened Seqs
  import opened Store

  /** The validated body of a create request. */
  datatype CreateSubscriptionInput = CreateSubscriptionInput(
    description: string,
    amount: Cents,
    categoryId: Id,
    frequency: Frequency,
    dayOfMonth: Option<int>,
    dayOfWeek: Option<int>,
    month: Option<int>)

  /** `createSubscription`: the row is active and owned by the caller; the
      category foreign key must name an existing category. */
  method CreateSubscription(db: Database, owner: UserId, data: CreateSubscriptionInput, now: Moment)
    returns (r: Result<Subscription>)
    requires db.Valid()
    modifies db`subscriptions, db`nextId
    ensures db.Valid()
    ensures !HasCategory(db.categories, data.categoryId) ==>
      r == Err(MissingReference("category")) && db.subscriptions == old(db.subscriptions) && db.nextId == old(db.nextId)
    ensures HasCategory(db.categories, data.categoryId) ==>
      && r == Ok(Subscription(old(db.nextId), owner, data.description, data.amount, data.categoryId, data.frequency,
                             data.dayOfMonth, data.dayOfWeek, data.month, None, true, now))
      && db.subscriptions == old(db.subscriptions) + [r.value]
  {
    if !HasCategory(db.categories, data.categoryId) {
      r := Err(MissingReference("category"));
      return;
    }
    var id := db.FreshId();
    var s := Subscription(id, owner, data.description, data.amount, data.categoryId, data.frequency,
                          data.dayOfMonth, data.dayOfWeek, data.month, None, true, now);
    AppendFresh(db.subscriptions, s, SubscriptionKey, id);
    db.subscriptions := db.subscriptions + [s];
    r := Ok(s);
  }

  predicate ActiveOf(owner: UserId, s: Subscription)
  {
    s.userId == owner && s.isActive
  }

  /** `getAllSubscriptions`: the caller's active subscriptions, newest
      first. */
  function GetAllSubscriptions(subscriptions: seq<Subscription>, owner: UserId): (r: seq<Subscription>)
    ensures multiset(r) == multiset(Filter(subscriptions, (s: Subscription) => ActiveOf(owner, s)))
    ensures forall i :: 0 <= i < |r| ==> r[i] in subscriptions && ActiveOf(owner, r[i])
    ensures SortedBy(r, NewestFirst(SubscriptionCreatedAt))
  {
    var rows := Filter(subscriptions, (s: Subscription) => ActiveOf(owner, s));
    var sorted := SortBy(rows, NewestFirst(SubscriptionCreatedAt));
    NewestFirstIsTotal(SubscriptionCreatedAt);
    SortBySorted(rows, NewestFirst(SubscriptionCreatedAt));
    forall i | 0 <= i < |sorted| ensures sorted[i] in subscriptions && ActiveOf(owner, sorted[i]) {
      assert sorted[i] in multiset(sorted);
      assert sorted[i] in multiset(rows);
      assert sorted[i] in rows;
    }
    sorted
  }

  // ---------------------------------------------------------------------
  // Selection

  /** The `findMany` filter of `createRecurringTransactions`: an active
      subscription of the caller whose anchor matches today: the day of
      the month for a monthly one, the weekday (0 = Sunday) for a weekly
      one, the day and the 1-based month for a yearly one. */
  predicate DueToday(s: Subscription, owner: UserId, today: CalendarDate)
  {
    && s.userId == owner
    && s.isActive
    && (|| (s.frequency == Monthly && s.dayOfMonth == Some(today.day))
        || (s.frequency == Weekly && s.dayOfWeek == Some(DayOfWeek(today)))
        || (s.frequency == Yearly && s.dayOfMonth == Some(today.day) && s.month == Some(today.month)))
  }

  function DueTodayFilter(owner: UserId, today: CalendarDate): Subscription -> bool
  {
    (s: Subscription) => DueToday(s, owner, today)
  }

  function SelectDueToday(subscriptions: seq<Subscription>, owner: UserId, today: CalendarDate): (r: seq<Subscription>)
    ensures forall i :: 0 <= i < |r| ==> r[i] in subscriptions && DueToday(r[i], owner, today)
    ensures forall i :: 0 <= i < |subscriptions| && DueToday(subscriptions[i], owner, today) ==> subscriptions[i] in r
  {
    Filter(subscriptions, DueTodayFilter(owner, today))
  }

  /** A monthly subscription whose day of the month exceeds the month's
      length is never selected in that month. */
  lemma MonthlyBeyondMonthLength(s: Subscription, owner: UserId, today: CalendarDate)
    requires s.frequency == Monthly && s.dayOfMonth.Some?
    requires s.dayOfMonth.value > DaysInMonth(today.year, today.month)
    ensures !DueToday(s, owner, today)
  {
  }

  /** A monthly or yearly subscription without `dayOfMonth`, and a weekly
      one without `dayOfWeek`, is never selected. */
  lemma MissingAnchorNeverSelected(s: Subscription, owner: UserId, today: CalendarDate)
    requires (s.frequency != Weekly && s.dayOfMonth.None?) || (s.frequency == Weekly && s.dayOfWeek.None?)
    ensures !DueToday(s, owner, today)
  {
  }

  /** The date `n` days after `d`, by repeated `setDate(getDate() + 1)`. */
  function DaysLater(d: CalendarDate, n: nat): CalendarDate
  {
    if n == 0 then d else NextDay(DaysLater(d, n - 1))
  }

  lemma {:induction false} DaysLaterNumber(d: CalendarDate, n: nat)
    ensures DayNumberOf(DaysLater(d, n)) == DayNumberOf(d) + n
  {
    if n > 0 {
      DaysLaterNumber(d, n - 1);
      NextDayNumber(DaysLater(d, n - 1));
    }
  }

  lemma ModShift(a: int, n: int)
    ensures (a + n) % 7 == (a % 7 + n) % 7
  {
    var q := a / 7;
    assert a + n == 7 * q + (a % 7 + n);
  }

  /** n days later the weekday has advanced by n, modulo 7. */
  lemma DaysLaterWeekday(d: CalendarDate, n: nat)
    ensures DayOfWeek(DaysLater(d, n)) == (DayOfWeek(d) + n) % 7
  {
    DaysLaterNumber(d, n);
    ModShift(DayNumberOf(d) + 4, n);
  }

  /** A weekly subscription selected today is selected again seven days
      later and on none of the six days in between. */
  lemma WeeklyRecursEverySevenDays(s: Subscription, owner: UserId, today: CalendarDate, n: nat)
    requires s.frequency == Weekly && DueToday(s, owner, today)
    requires 1 <= n <= 7
    ensures DueToday(s, owner, DaysLater(today, n)) <==> n == 7
  {
    DaysLaterWeekday(today, n);
    var w := DayOfWeek(today);
    assert s.dayOfWeek == Some(w);
    assert (w + n) % 7 == (if w + n >= 7 then w + n - 7 else w + n);
  }

  // ---------------------------------------------------------------------
  // Materialisation

  /** The transaction the loop body creates, as written: its `dueDate` is
      the current instant. */
  function RecurringTransactionAsWritten(s: Subscription, categoryName: string, owner: UserId, id: Id, now: Moment): (t: Transaction)
    ensures t.dueDate == Some(now)
  {
    Transaction(id, owner, s.amount, s.description, Some(categoryName), Some(categoryName), Some(s.categoryId),
                Expense, Pending, Some(now), None, None, now)
  }

  /** The created transaction with the due date at today's local midnight,
      as the repository's test expects. */
  function RecurringTransaction(s: Subscription, categoryName: string, owner: UserId, id: Id, now: Moment): (t: Transaction)
    ensures t == RecurringTransactionAsWritten(s, categoryName, owner, id, now).(dueDate := Some(Moment(now.date, 0)))
  {
    Transaction(id, owner, s.amount, s.description, Some(categoryName), Some(categoryName), Some(s.categoryId),
                Expense, Pending, Some(Moment(now.date, 0)), None, None, now)
  }

  /** The code as written stores a due date carrying the time of the run. */
  lemma DueDateCarriesTimeAsWritten(s: Subscription, categoryName: string, owner: UserId, id: Id, now: Moment)
    requires now.ms != 0
    ensures RecurringTransactionAsWritten(s, categoryName, owner, id, now).dueDate.value.ms != 0
    ensures RecurringTransaction(s, categoryName, owner, id, now).dueDate.value.ms == 0
  {
  }

  predicate AllHaveCategory(selected: seq<Subscription>, categories: seq<Category>)
  {
    forall i :: 0 <= i < |selected| ==> HasCategory(categories, selected[i].categoryId)
  }

  /** One transaction per selected subscription, with consecutive ids. */
  function RecurringRows(selected: seq<Subscription>, categories: seq<Category>, owner: UserId, startId: nat, now: Moment)
    : (r: seq<Transaction>)
    requires AllHaveCategory(selected, categories)
    ensures |r| == |selected|
  {
    seq(|selected|, i requires 0 <= i < |selected| =>
      RecurringTransaction(selected[i], CategoryName(categories, selected[i].categoryId), owner, startId + i, now))
  }

  /** Each created transaction is a pending expense of the caller, due
      today, with the subscription's amount and description, the
      category's name as `category` and `categoryName`, and the
      subscription's category id. */
  lemma RecurringRowFields(selected: seq<Subscription>, categories: seq<Category>, owner: UserId, startId: nat, now: Moment, i: nat)
    requires AllHaveCategory(selected, categories) && i < |selected|
    ensures var t := RecurringRows(selected, categories, owner, startId, now)[i];
      && t.id == startId + i && t.userId == owner
      && t.kind == Expense && t.status == Pending
      && t.amount == selected[i].amount && t.description == selected[i].description
      && t.category == t.categoryName == Some(CategoryName(categories, selected[i].categoryId))
      && t.categoryId == Some(selected[i].categoryId)
      && t.dueDate.Some? && t.dueDate.value.date == now.date
      && t.creditCardId.None?
  {
  }

  lemma RecurringRowAt(selected: seq<Subscription>, categories: seq<Category>, owner: UserId, startId: nat, now: Moment, i: nat)
    requires AllHaveCategory(selected, categories) && i < |selected|
    ensures RecurringRows(selected, categories, owner, startId, now)[i]
         == RecurringTransaction(selected[i], CategoryName(categories, selected[i].categoryId), owner, startId + i, now)
  {
  }

  lemma SelectedHaveCategories(db: Database, owner: UserId, today: CalendarDate)
    requires db.Valid()
    ensures AllHaveCategory(SelectDueToday(db.subscriptions, owner, today), db.categories)
  {
    var selected := SelectDueToday(db.subscriptions, owner, today);
    forall i | 0 <= i < |selected| ensures HasCategory(db.categories, selected[i].categoryId) {
      var j :| 0 <= j < |db.subscriptions| && db.subscriptions[j] == selected[i];
    }
  }

  /** `createRecurringTransactions`: appends one transaction per selected
      subscription, in selection order, and nothing else. */
  method CreateRecurringTransactions(db: Database, owner: UserId, now: Moment)
    requires db.Valid()
    modifies db`transactions, db`nextId
    ensures db.Valid()
    ensures var selected := SelectDueToday(db.subscriptions, owner, now.date);
      && AllHaveCategory(selected, db.categories)
      && db.transactions == old(db.transactions) + RecurringRows(selected, db.categories, owner, old(db.nextId), now)
      && db.nextId == old(db.nextId) + |selected|
  {
    var selected := SelectDueToday(db.subscriptions, owner, now.date);
    SelectedHaveCategories(db, owner, now.date);
    ghost var before, cats, start := db.transactions, db.categories, db.nextId;
    ghost var rows := RecurringRows(selected, cats, owner, start, now);
    var i := 0;
    while i < |selected|
      invariant 0 <= i <= |selected|
      invariant db.Valid()
      invariant db.categories == cats
      invariant db.nextId == start + i
      invariant db.transactions == before + rows[..i]
    {
      RecurringRowAt(selected, cats, owner, start, now, i);
      var t := AddRecurring(db, selected[i], owner, now);
      assert t == rows[i];
      PrefixGrows(before, rows, i, t);
      i := i + 1;
    }
    assert rows[..i] == rows;
  }

  /** One iteration: the transaction of one selected subscription, with the
      next identifier. */
  method AddRecurring(db: Database, sub: Subscription, owner: UserId, now: Moment) returns (t: Transaction)
    requires db.Valid() && HasCategory(db.categories, sub.categoryId)
    modifies db`transactions, db`nextId
    ensures db.Valid()
    ensures t == RecurringTransaction(sub, CategoryName(db.categories, sub.categoryId), owner, old(db.nextId), now)
    ensures db.nextId == old(db.nextId) + 1
    ensures db.transactions == old(db.transactions) + [t]
  {
    var name := CategoryName(db.categories, sub.categoryId);
    var id := db.FreshId();
    t := RecurringTransaction(sub, name, owner, id, now);
    AppendFresh(db.transactions, t, TransactionKey, id);
    db.transactions := db.transactions + [t];
  }

  /** Two batches for the same selection differ only in their ids. */
  lemma RecurringRowsShift(selected: seq<Subscription>, categories: seq<Category>, owner: UserId, s1: nat, s2: nat, now: Moment)
    requires AllHaveCategory(selected, categories) && s1 <= s2
    ensures RepeatsWithShiftedIds(RecurringRows(selected, categories, owner, s1, now),
                                  RecurringRows(selected, categories, owner, s2, now), s2 - s1)
  {
  }

  /** `second` holds the rows of `first` again, with ids `shift` higher. */
  predicate RepeatsWithShiftedIds(first: seq<Transaction>, second: seq<Transaction>, shift: nat)
  {
    |first| == |second| && forall k :: 0 <= k < |first| ==> second[k] == first[k].(id := first[k].id + shift)
  }

  /** No duplicate check: running `CreateRecurringTransactions` twice on
      the same day (the selection depends only on the subscription table,
      which it does not change) appends the batch of the first run and then
      the same rows again, with fresh ids. */
  lemma SecondRunRepeats(before: seq<Transaction>, selected: seq<Subscription>, categories: seq<Category>,
                         owner: UserId, start: nat, now: Moment)
    requires AllHaveCategory(selected, categories)
    ensures var n, m := |selected|, |before|;
      var after := before + RecurringRows(selected, categories, owner, start, now)
                          + RecurringRows(selected, categories, owner, start + n, now);
      && |after| == m + 2 * n
      && after[..m] == before
      && RepeatsWithShiftedIds(after[m..m + n], after[m + n..], n)
  {
    var n, m := |selected|, |before|;
    var rows1 := RecurringRows(selected, categories, owner, start, now);
    var rows2 := RecurringRows(selected, categories, owner, start + n, now);
    ThreeParts(before, rows1, rows2);
    RecurringRowsShift(selected, categories, owner, start, start + n, now);
  }
}
