/** The request validators of the budget endpoints, as predicates over the
    fields of a decoded request (numbers are JavaScript numbers, so
    `real`; a field the request leaves out is `None`). */
module BudgetsSchema {

  import opened Common
  import opened Calendar
  import opened Seqs
  import opened Store
  import Budgets

  predicate AmountOk(x: real) { x > 0.0 }
  predicate MonthOk(x: real) { 1.0 <= x <= 12.0 }
  predicate YearOk(x: real) { 2000.0 <= x <= 2100.0 }

  /** `CreateBudgetSchema`: every field present; `categoryId` is checked to
      be a UUID, which the model's numeric identifiers always are. */
  predicate ValidCreate(categoryId: Option<Id>, amount: Option<real>, month: Option<real>, year: Option<real>)
  {
    && categoryId.Some?
    && amount.Some? && AmountOk(amount.value)
    && month.Some? && MonthOk(month.value)
    && year.Some? && YearOk(year.value)
  }

  /** `UpdateBudgetSchema`: only an optional positive amount. */
  predicate ValidUpdate(amount: Option<real>)
  {
    amount.Some? ==> AmountOk(amount.value)
  }

  /** `GetBudgetsSchema`: optional month and year, in the create ranges. */
  predicate ValidQuery(month: Option<real>, year: Option<real>)
  {
    && (month.Some? ==> MonthOk(month.value))
    && (year.Some? ==> YearOk(year.value))
  }

  /** `GetBudgetProgressSchema`: both month and year, in the create ranges. */
  predicate ValidProgressQuery(month: Option<real>, year: Option<real>)
  {
    month.Some? && year.Some? && ValidQuery(month, year)
  }

  /** The period of a valid create body is a valid progress query, which is
      a valid list query; the update body of a valid create is valid too. */
  lemma SchemasNest(categoryId: Option<Id>, amount: Option<real>, month: Option<real>, year: Option<real>)
    ensures ValidCreate(categoryId, amount, month, year) ==> ValidProgressQuery(month, year) && ValidUpdate(amount)
    ensures ValidProgressQuery(month, year) ==> ValidQuery(month, year)
    ensures ValidQuery(None, None) && ValidUpdate(None) && !ValidProgressQuery(month, None)
  {
  }

  /** With a validated list query the truthiness tests of `getBudgets` are
      plain presence tests: no valid month or year is 0. */
  lemma ValidQueryPresence(month: Option<real>, year: Option<real>)
    requires ValidQuery(month, year)
    requires month.Some? ==> Whole(month.value)
    requires year.Some? ==> Whole(year.value)
    ensures Given(WholeOf(month)) <==> month.Some?
    ensures Given(WholeOf(year)) <==> year.Some?
  {
  }

  /** A validated whole progress period is read by the date constructor as
      written, so `spent` sums exactly the expenses created in that
      calendar month. */
  lemma ValidatedProgressWindow(transactions: seq<Transaction>, owner: UserId, name: string,
                                month: Option<real>, year: Option<real>)
    requires ValidProgressQuery(month, year) && Whole(month.value) && Whole(year.value)
    ensures var m, y := month.value.Floor, year.value.Floor;
      Budgets.Spent(transactions, owner, name, m, y)
        == SumOf(Filter(transactions, (t: Transaction) =>
             t.userId == owner && t.category == Some(name) && t.kind == Expense
             && t.createdAt.date.year == y && t.createdAt.date.month == m), TransactionAmount)
  {
    Budgets.SpentIsCalendarMonth(transactions, owner, name, month.value.Floor, year.value.Floor);
  }

  lemma RangeExamples()
    ensures ValidCreate(Some(1), Some(500.0), Some(12.0), Some(2100.0))
    ensures !ValidCreate(Some(1), Some(0.0), Some(1.0), Some(2025.0))
    ensures !ValidCreate(Some(1), Some(500.0), Some(13.0), Some(2025.0))
    ensures !ValidCreate(Some(1), Some(500.0), Some(1.0), Some(1999.0))
    ensures !ValidCreate(None, Some(500.0), Some(1.0), Some(2025.0))
    ensures !ValidUpdate(Some(-1.0))
  {
  }
}
