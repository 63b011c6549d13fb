# salva-contas-server, modelled in Dafny

salva-contas-server is the backend of a personal-finance application. It
stores credit cards, transactions, subscriptions, budgets, categories and
notifications, one row set per user, behind a Prisma database. This project
models its repositories and request validators, and proves what they promise:

- the calendar arithmetic of JavaScript's `Date`;
- the date parser `parseDateLocal`;
- the credit-card summary, with its debt sum and its next closing and due dates;
- the recurring-subscription run;
- budget progress;
- the dashboard metrics;
- the notification table and its three de-duplicating generators;
- cursor pagination of categories;
- the category normalisation of a stored receipt;
- the zod validators.

Layout, one module per source file plus four shared ones:

| file | module | models |
|---|---|---|
| `common.dfy` | `Common` | `Option`, `Result`, the failures a write can report (not found, conflict, missing reference) |
| `seqs.dfy` | `Seqs` | filter, `_sum`, `findFirst`, a comparator sort with its sortedness and permutation proofs, pages |
| `calendar.dfy` | `Calendar` | proleptic Gregorian dates, day numbers, the weekday, the normalising `new Date(y, m, d)` of ECMA-262 with its two-digit-year rule, `setDate(±1)`, month and year windows |
| `store.dfy` | `Store` | the records of the Prisma schema and the `Database` class: one `seq` field per table and the identifier counter; see below |
| `date_utils.dfy` | `DateUtils` | `parseDateLocal` |
| `credit_cards.dfy` | `CreditCards` | the credit-card repository |
| `subscriptions.dfy` | `Subscriptions` | the subscription repository |
| `budgets.dfy` | `Budgets` | the budget repository |
| `dashboard.dfy` | `Dashboard` | `getMetrics` |
| `notifications.dfy` | `Notifications` | the notification repository |
| `categories.dfy` | `Categories` | `getAllCategories` |
| `transactions.dfy` | `Transactions` | `createTransaction` |
| `credit_cards_schema.dfy`, `subscriptions_schema.dfy`, `budgets_schema.dfy` | `CreditCardsSchema`, `SubscriptionsSchema`, `BudgetsSchema` | the zod schemas, as predicates |

`Database.Valid()` is the invariant every write keeps:

- primary keys are distinct and below the counter;
- the category unique key `(userId, name)` holds;
- the budget key `(userId, categoryId, month, year)` holds;
- every budget and subscription names an existing category.

Writes are methods that modify only the fields of the tables they touch.
Queries are functions over the table sequences.

How the model stands in for things outside the code:

- **Clock.** The current instant is a parameter `now`: a valid local calendar date plus milliseconds since local midnight.
- **Owner.** The fixed development user is a parameter `owner`.
- **Amounts.** Amounts are integers (cents). Percentages are `real`.
- **Request numbers.** JavaScript numbers in requests are `real`.
- **Identifiers.** Database identifiers are natural numbers handed out by the counter.

Two facts about the code shape the model:

- The recurring run does not copy a credit-card id onto the transactions it creates. `creditCardId` stays empty; `RecurringRowFields` states this.
- The invoice-window dates of the credit-card summary are declared in `src/credit-cards/credit-cards.interface.ts` but computed nowhere, so they are not modelled.

Where the code has a bug (see "## Findings"), the model keeps the code as written beside a corrected version. The credit-card summary is modelled as written, with the corrected summary beside it. The recurring run stores the corrected due date (see "## Left out").

## Model

| member | source | states |
|---|---|---|
| `Store.Database.constructor` | src/credit-cards/credit-cards.repository.ts:11 | an empty database satisfies the table invariant |
| `Store.Database.FreshId` | src/credit-cards/credit-cards.repository.ts:14-20 | the database hands out each identifier once, in increasing order |
| `Calendar.DaysInMonth` | src/credit-cards/credit-cards.repository.ts:122-127 | months have 28 to 31 days, and 29 exactly for February of a leap year |
| `Calendar.MakeDateIsMakeDay` | src/utils/date-utils.ts:15 | `new Date(y, m, d)` gives the first of the month that `m` carries into (12 is January of the next year), plus `d - 1` days |
| `Calendar.MakeDateOfValid` | src/utils/date-utils.ts:8 | a real date passes through the constructor unchanged |
| `Calendar.MakeDateInMonth` | src/credit-cards/credit-cards.repository.ts:122-127 | a day the month has is kept; a larger day up to 31 rolls into the next month |
| `Calendar.NormalizeDayNumber` | src/utils/date-utils.ts:15 | overflow normalisation lands on the date `d - 1` days after the first of the month |
| `Calendar.DayNumberOrder` | src/credit-cards/credit-cards.repository.ts:120-127 | on real dates, day-number order is calendar order |
| `Calendar.DayOfWeek` | src/subscriptions/subscriptions.repository.ts:44 | `getDay()` lies in 0..6 |
| `Calendar.NextDayAdvances` | src/notifications/notifications.repository.ts:83-84 | `setDate(getDate() + 1)` is the next calendar day, one weekday later |
| `Calendar.PrevDayRecedes` | src/notifications/notifications.repository.ts:204 | going back one day gives an earlier date |
| `Calendar.MonthLength` | src/budgets/budgets.repository.ts:92-93 | the first of the next month lies `DaysInMonth` days after the first of this one |
| `Calendar.MonthWindowExact` | src/budgets/budgets.repository.ts:92-93 | `[new Date(y, m-1, 1), new Date(y, m, 1))` holds exactly the instants of calendar month `m`, December included |
| `Calendar.YearWindowExact` | src/dashboard/dashboard.repository.ts:19-22 | `[new Date(y, 0, 1), new Date(y+1, 0, 1))` holds exactly the instants of the year, wherever the constructor reads both years alike |
| `Calendar.AtOrBeforeTotal` | src/notifications/notifications.repository.ts:35-37 | instants are totally ordered |
| `Calendar.AtOrBeforeTransitive` | src/notifications/notifications.repository.ts:35-37 | that order is transitive |
| `Calendar.KnownWeekdays` | src/subscriptions/subscriptions.repository.ts:44 | 1 January 1970 was a Thursday, 14 October 2026 a Wednesday |
| `DateUtils.ParseDateLocalAsWritten` | src/utils/date-utils.ts:1-23 | the function as written: null gives null, a non-matching string goes to the generic parser, a Date gives local midnight of `new Date(y, m, d)` of its UTC fields, and a date-only string local midnight of `new Date(year, month - 1, day)` of its digits, with the constructor's year rule and overflow normalisation |
| `DateUtils.ParseDateLocal` | src/utils/date-utils.ts:1-23 | the corrected function: a Date keeps its UTC calendar date at local midnight, and a date-only string gives midnight |
| `DateUtils.FormatIso` | src/utils/date-utils.ts:12 | formatting a date with at most four year digits matches the anchored `YYYY-MM-DD` pattern |
| `DateUtils.FormatIsoFields` | src/utils/date-utils.ts:14-15 | the captured groups read back the formatted year, month and day |
| `DateUtils.IsoRoundTrip` | src/utils/date-utils.ts:12-15 | formatting any date with a four-digit year and parsing it gives the same date at local midnight |
| `DateUtils.IsoRoundTripAsWritten` | src/utils/date-utils.ts:12-15 | the code as written keeps that round trip from year 100 on |
| `DateUtils.DateValueKeptAsWritten` | src/utils/date-utils.ts:4-9 | as written, a Date input keeps its UTC year, month and day, except in years 0 to 99 |
| `DateUtils.IsoStringIsMakeDay` | src/utils/date-utils.ts:15 | a date-only string is never range-checked: its digits go through normalisation |
| `DateUtils.ParseIsoText` | src/utils/date-utils.ts:13-15 | a date-only string yields local midnight of (year, month - 1, day) |
| `DateUtils.December11` | src/utils/date-utils.ts:4-15 | `"2025-12-11"` and the Date built from it both give 11 December 2025 at 00:00 |
| `DateUtils.IsoTextAsWritten` | src/utils/date-utils.ts:12-15 | as written, a date-only string reads as the corrected reading from year 100 on and 1900 years later below it, and its digits go through normalisation unchecked |
| `DateUtils.February30RollsOver` | src/utils/date-utils.ts:15 | `"2025-02-30"` becomes 2 March 2025, as written and corrected |
| `DateUtils.DateTimeUsesGenericParse` | src/utils/date-utils.ts:12-19 | a `T15:30:00Z` suffix skips the date-only branch |
| `DateUtils.TwoDigitYearShift` | src/utils/date-utils.ts:15 | as written, `"0050-06-15"` becomes 15 June 1950; the corrected reading keeps year 50 |
| `CreditCards.GetCreditCardById` | src/credit-cards/credit-cards.repository.ts:40-47 | the result is the caller's card with that id, and is absent exactly when the caller has no such card |
| `CreditCards.CardByIdUnique` | src/credit-cards/credit-cards.repository.ts:40-96 | with distinct ids, the lookup and the summary report the one row with that id, exactly when the caller owns it |
| `CreditCards.CreateCreditCard` | src/credit-cards/credit-cards.repository.ts:13-21 | the new card is the caller's and active; its available limit is its limit; it is appended with a fresh id |
| `CreditCards.ApplyCardUpdate` | src/credit-cards/credit-cards.repository.ts:49-57 | the given fields replace the stored ones; `availableLimit` is not recomputed; an empty update changes nothing |
| `CreditCards.UpdateCreditCard` | src/credit-cards/credit-cards.repository.ts:49-57 | not found unless the caller owns that id; otherwise only that row is replaced by the update |
| `CreditCards.DeleteCreditCard` | src/credit-cards/credit-cards.repository.ts:59-66 | not found unless the caller owns that id; otherwise exactly that row is removed |
| `CreditCards.UpdateAvailableLimit` | src/credit-cards/credit-cards.repository.ts:68-78 | only `availableLimit` of that card changes |
| `CreditCards.CardListing` | src/credit-cards/credit-cards.repository.ts:23-34 | the listing is a permutation of the caller's cards (of the status, when one is given), newest first |
| `CreditCards.GetCreditCards` | src/credit-cards/credit-cards.repository.ts:23-38 | without filters: all the caller's cards; with filters: at most `limit` cards, the listing from `(page-1)*limit` on; newest first |
| `CreditCards.ListingRows` | src/credit-cards/credit-cards.repository.ts:30-37 | every window of the listing holds matching cards of the table, newest first |
| `CreditCards.GetCreditCardSummary` | src/credit-cards/credit-cards.repository.ts:80-137 | fails with "Credit card not found" exactly when the caller has no such card; otherwise reports the debt, the stored available limit, the next closing date and, as written, the due day in the closing month |
| `CreditCards.GetCreditCardSummaryCorrected` | src/credit-cards/credit-cards.repository.ts:120-128 | the summary as written with the due date moved after the closing date; it fails exactly when the summary does |
| `CreditCards.SummaryDueDateInPastAsWritten` | src/credit-cards/credit-cards.repository.ts:120-123 | for closing day 10 and due day 5 on 7 March 2024 the summary reports 5 March 2024, before today; the corrected summary reports 5 April 2024 |
| `CreditCards.CorrectedSummaryDueNotBeforeToday` | src/credit-cards/credit-cards.repository.ts:120-128 | the corrected summary never reports a due date before today |
| `CreditCards.PendingDebtSnoc` | src/credit-cards/credit-cards.repository.ts:99-110 | a new transaction adds its amount to the debt exactly when it is a pending one of the caller on the card, whatever its type or date |
| `CreditCards.NoPendingNoDebt` | src/credit-cards/credit-cards.repository.ts:110 | with no pending transaction on the card the debt is 0 |
| `CreditCards.ClosingMonthDayNumber` | src/credit-cards/credit-cards.repository.ts:122-126 | the closing-date constructor counts the day from the first of the closing month |
| `CreditCards.ClosingMonthStart` | src/credit-cards/credit-cards.repository.ts:120-127 | up to the closing day the closing falls today or later in this month; after it, the next month starts after today |
| `CreditCards.NextClosingNotBeforeToday` | src/credit-cards/credit-cards.repository.ts:120-127 | the next closing date is never before today, even when the closing day overflows a short month |
| `CreditCards.NextClosingDateCases` | src/credit-cards/credit-cards.repository.ts:120-127 | the closing falls this month up to the closing day, otherwise next month; December rolls over to January, and a missing day rolls over too |
| `CreditCards.DecemberRollsOver` | src/credit-cards/credit-cards.repository.ts:126 | after the closing day in December, the next closing is in January of the next year |
| `CreditCards.DueDateInPastAsWritten` | src/credit-cards/credit-cards.repository.ts:123 | as written, closing day 10 and due day 5 on 7 March 2024 give a due date of 5 March 2024, which is in the past |
| `CreditCards.FollowingMonthDayNumber` | src/credit-cards/credit-cards.repository.ts:127 | a constructor one month later counts the day from the first of the month after the closing month |
| `CreditCards.NextDueDateFollowsClosing` | src/credit-cards/credit-cards.repository.ts:120-128 | the corrected due date is never before today, and it follows the closing date |
| `CreditCards.CycleExamples` | src/credit-cards/credit-cards.repository.ts:120-128 | worked cycles of an invoice that has not closed and of one that has |
| `CreditCardsSchema.FlagOf` | src/schemas/credit-cards.schema.ts:5 | exactly the six flags decode |
| `CreditCardsSchema.StatusOf` | src/schemas/credit-cards.schema.ts:19 | exactly the four statuses decode |
| `CreditCardsSchema.UpdateIsCreateRelaxed` | src/schemas/credit-cards.schema.ts:3-20 | a valid create body is a valid update body, the empty update is valid, and an unknown status is rejected |
| `CreditCardsSchema.LastFourExamples` | src/schemas/credit-cards.schema.ts:6 | exactly four digits 0-9 are accepted |
| `CreditCardsSchema.FractionalDayAccepted` | src/schemas/credit-cards.schema.ts:8-9 | integrality is not required: closing day 10.5 validates |
| `CreditCardsSchema.ValidatedClosingNotBeforeToday` | src/schemas/credit-cards.schema.ts:8 | a validated whole closing day gives a next closing date that is not before today |
| `CreditCardsSchema.ParseCardQuery` | src/schemas/credit-cards.schema.ts:22-26 | a query is accepted exactly when its page is at least 1, its limit in 1..100 and its status, if any, one of the four; page and limit default to 1 and 10, and the status is decoded |
| `CreditCardsSchema.QueryExamples` | src/schemas/credit-cards.schema.ts:22-26 | the defaults apply, and out-of-range pages, limits and unknown statuses are rejected |
| `CreditCardsSchema.ValidatedPageBounded` | src/schemas/credit-cards.schema.ts:22-26 | a validated query satisfies the listing's precondition, and a page never holds more than 100 cards |
| `Subscriptions.CreateSubscription` | src/subscriptions/subscriptions.repository.ts:14-24 | the new row is active and the caller's; unknown categories are a missing-reference failure that writes nothing |
| `Subscriptions.GetAllSubscriptions` | src/subscriptions/subscriptions.repository.ts:26-39 | exactly the caller's active subscriptions, as a permutation, newest first |
| `Subscriptions.SelectDueToday` | src/subscriptions/subscriptions.repository.ts:42-70 | selects exactly the active subscriptions of the caller whose anchor matches today |
| `Subscriptions.MonthlyBeyondMonthLength` | src/subscriptions/subscriptions.repository.ts:53-54 | a monthly day beyond the month's length is never selected that month |
| `Subscriptions.MissingAnchorNeverSelected` | src/subscriptions/subscriptions.repository.ts:51-65 | a subscription without the anchor its frequency needs is never selected |
| `Subscriptions.DaysLaterNumber` | src/subscriptions/subscriptions.repository.ts:42-44 | n days later is n day numbers later |
| `Subscriptions.DaysLaterWeekday` | src/subscriptions/subscriptions.repository.ts:44 | n days later the weekday has advanced by n modulo 7 |
| `Subscriptions.WeeklyRecursEverySevenDays` | src/subscriptions/subscriptions.repository.ts:56-59 | a weekly subscription selected today is selected again 7 days later and on none of the days between |
| `Store.CategoryName` | src/subscriptions/subscriptions.repository.ts:78-79 | the name comes from the category row that the subscription (or the budget, at budgets.repository.ts line 89) names |
| `Subscriptions.RecurringTransactionAsWritten` | src/subscriptions/subscriptions.repository.ts:73-84 | as written, the due date is the current instant |
| `Subscriptions.RecurringTransaction` | src/subscriptions/subscriptions.repository.ts:73-84 | the corrected row differs from it only in a due date at today's midnight |
| `Subscriptions.DueDateCarriesTimeAsWritten` | src/subscriptions/subscriptions.repository.ts:42-83 | the code as written stores the run's time of day; the corrected row stores midnight |
| `Subscriptions.RecurringRows` | src/subscriptions/subscriptions.repository.ts:72-86 | one transaction per selected subscription |
| `Subscriptions.RecurringRowFields` | src/subscriptions/subscriptions.repository.ts:73-84 | each created row is a pending expense of the caller, due today, with the subscription's amount, description and category id and the category's name |
| `Subscriptions.RecurringRowAt` | src/subscriptions/subscriptions.repository.ts:72-86 | the i-th created row belongs to the i-th selected subscription and has the i-th fresh id |
| `Subscriptions.SelectedHaveCategories` | src/subscriptions/subscriptions.repository.ts:67-69 | all the selected subscriptions have their category |
| `Subscriptions.CreateRecurringTransactions` | src/subscriptions/subscriptions.repository.ts:41-89 | appends exactly the rows of the selection, in order, and nothing else; the count equals the number selected |
| `Subscriptions.AddRecurring` | src/subscriptions/subscriptions.repository.ts:73-85 | one iteration appends the subscription's transaction with the next id |
| `Subscriptions.RecurringRowsShift` | src/subscriptions/subscriptions.repository.ts:72-86 | two batches for the same selection differ only in their ids |
| `Subscriptions.SecondRunRepeats` | src/subscriptions/subscriptions.repository.ts:72-86 | there is no duplicate check: a second run on the same day appends the same rows again with fresh ids |
| `SubscriptionsSchema.FrequencyOf` | src/schemas/subscriptions.schema.ts:7 | exactly the three frequencies decode |
| `SubscriptionsSchema.UpdateIsCreateRelaxed` | src/schemas/subscriptions.schema.ts:3-27 | a valid create body is a valid update body, and the empty update is valid |
| `SubscriptionsSchema.CreateInput` | src/schemas/subscriptions.schema.ts:3-11 | a validated body gives a row exactly when its amount is a whole number of cents and its anchors are whole; the row carries the body's description, amount in cents, category, frequency and anchors, each anchor present exactly when the body has it |
| `SubscriptionsSchema.MonthlyWithoutDayValidates` | src/schemas/subscriptions.schema.ts:3-11 | a monthly body without a day of the month validates, and that subscription is never selected |
| `SubscriptionsSchema.WeeklyWithWrongAnchor` | src/schemas/subscriptions.schema.ts:8-9 | a weekly body with only a day of the month validates, and is never selected either |
| `SubscriptionsSchema.AnchorRangeExamples` | src/schemas/subscriptions.schema.ts:4-16 | out-of-range anchors, amounts, descriptions, frequencies and query years are rejected |
| `Budgets.CreateBudget` | src/budgets/budgets.repository.ts:12-27 | a budget for an unknown category is a missing reference; a second budget for the same category and period is a conflict; otherwise one row is appended |
| `Budgets.ApplyBudgetUpdate` | src/budgets/budgets.repository.ts:50-58 | an update changes only the amount |
| `Budgets.UpdateBudget` | src/budgets/budgets.repository.ts:50-58 | not found unless the id exists, whatever the owner; otherwise only that row changes |
| `Budgets.DeleteBudget` | src/budgets/budgets.repository.ts:60-64 | not found unless the id exists; otherwise exactly that row is removed |
| `Budgets.GetBudgets` | src/budgets/budgets.repository.ts:29-48 | filters by month and year when both are truthy, by year alone when only it is, by owner only otherwise; newest first |
| `Budgets.ProgressOf` | src/budgets/budgets.repository.ts:84-111 | spent is the window sum, remaining is amount minus spent, and percentage is as computed |
| `Budgets.GetBudgetProgress` | src/budgets/budgets.repository.ts:66-116 | exactly one entry per budget of the caller for the period, in table order, each as `ProgressOf` |
| `Budgets.ProgressRows` | src/budgets/budgets.repository.ts:83-113 | the fan-out keeps its input order |
| `Budgets.SelectedHaveCategory` | src/budgets/budgets.repository.ts:72-81 | the selected budgets all have their category |
| `Budgets.SpentIsCalendarMonth` | src/budgets/budgets.repository.ts:86-101 | spent sums exactly the caller's expenses of the category created in that calendar month |
| `Budgets.DecemberWindow` | src/budgets/budgets.repository.ts:92-93 | the December window ends on 1 January of the following year |
| `Budgets.NothingSpent` | src/budgets/budgets.repository.ts:101 | with no matching expense, spent is 0 |
| `Budgets.SpentSnoc` | src/budgets/budgets.repository.ts:86-101 | a new transaction adds to spent exactly when it matches |
| `Budgets.SpentNonNegative` | src/budgets/budgets.repository.ts:101 | non-negative amounts give a non-negative spent |
| `Budgets.PercentageThreshold` | src/budgets/budgets.repository.ts:104 | on a positive budget, 80% is reached exactly when 5·spent ≥ 4·amount |
| `Budgets.Overspend` | src/budgets/budgets.repository.ts:103-104 | nothing is clamped: overspending gives more than 100% and a negative remainder |
| `Budgets.ZeroBudget` | src/budgets/budgets.repository.ts:104 | a zero budget reports 0% |
| `Budgets.ProgressExamples` | src/budgets/budgets.repository.ts:103-104 | 450 of 500 is 90% with 50 left; 600 of 500 is 120% with -100 left |
| `BudgetsSchema.SchemasNest` | src/schemas/budgets.schema.ts:3-22 | a valid create gives a valid progress query and update; progress queries are list queries; progress needs both fields |
| `BudgetsSchema.ValidQueryPresence` | src/schemas/budgets.schema.ts:14-17 | on a validated query, the repository's truthiness tests are presence tests |
| `BudgetsSchema.ValidatedProgressWindow` | src/schemas/budgets.schema.ts:19-22 | a validated progress period sums exactly that calendar month |
| `BudgetsSchema.RangeExamples` | src/schemas/budgets.schema.ts:3-12 | the boundary values of amount, month, year and category id |
| `Dashboard.PeriodWindowMeaning` | src/dashboard/dashboard.repository.ts:12-23 | month and year select that calendar month, the year alone selects that year, and otherwise every transaction is counted |
| `Dashboard.TotalsSnoc` | src/dashboard/dashboard.repository.ts:35-39 | income and expenses add to their own totals; other types add to neither |
| `Dashboard.TotalsPrefix` | src/dashboard/dashboard.repository.ts:33-39 | one iteration's effect on the totals |
| `Dashboard.GroupName` | src/dashboard/dashboard.repository.ts:41 | a missing or empty category is grouped as `Uncategorized` |
| `Dashboard.WithKey` | src/dashboard/dashboard.repository.ts:42-44 | after the check, the map has the key |
| `Dashboard.ToEntry` | src/dashboard/dashboard.repository.ts:53-58 | each entry has `net = income - expenses` |
| `Dashboard.Entries` | src/dashboard/dashboard.repository.ts:53-58 | the breakdown maps the entries in insertion order |
| `Dashboard.GetMetrics` | src/dashboard/dashboard.repository.ts:11-66 | the totals, the net balance and the breakdown of every transaction in the window, whoever owns it |
| `Dashboard.Tally` | src/dashboard/dashboard.repository.ts:29-51 | the loop computes the income total, the expense total and the category map |
| `Dashboard.AddToTotals` | src/dashboard/dashboard.repository.ts:34-39 | the totals update of one iteration |
| `Dashboard.AddToCategory` | src/dashboard/dashboard.repository.ts:41-50 | the map update of one iteration |
| `Dashboard.AccumulateShape` | src/dashboard/dashboard.repository.ts:41-50 | a new name is appended with this amount; a known one is updated in place |
| `Dashboard.BreakdownKeys` | src/dashboard/dashboard.repository.ts:41-44 | the map's keys are exactly the group names met |
| `Dashboard.BreakdownDistinct` | src/dashboard/dashboard.repository.ts:42-44 | each category appears once |
| `Dashboard.BreakdownSums` | src/dashboard/dashboard.repository.ts:45-50 | each entry holds the income and the expenses of its group |
| `Dashboard.BreakdownTotals` | src/dashboard/dashboard.repository.ts:33-51 | per-category incomes sum to `totalIncome` and expenses to `totalExpenses` |
| `Dashboard.BreakdownOrder` | src/dashboard/dashboard.repository.ts:42-53 | categories appear in first-seen order |
| `Notifications.CreateNotification` | src/notifications/notifications.repository.ts:12-24 | the row is unread, the caller's and created now; it has the given type and related id and is appended with a fresh id |
| `Notifications.Listing` | src/notifications/notifications.repository.ts:27-37 | a permutation of the matching rows, newest first |
| `Notifications.GetNotifications` | src/notifications/notifications.repository.ts:26-40 | at most `limit` of the caller's rows (of the status, when one is given), newest first, and a prefix of the listing |
| `Notifications.DefaultLimitPage` | src/notifications/notifications.repository.ts:26-39 | with the default `limit = 50`, at most 50 rows come back, and all of the caller's matching rows when there are no more than 50 |
| `Notifications.NewestKept` | src/notifications/notifications.repository.ts:35-38 | a matching row cut off by the limit is no newer than any returned row |
| `Notifications.GetUnreadCount` | src/notifications/notifications.repository.ts:73-80 | the count is 0 exactly when the caller has no unread row |
| `Notifications.CreateAddsUnread` | src/notifications/notifications.repository.ts:12-80 | a new unread notification of the caller raises the count by one |
| `Notifications.MarkRead` | src/notifications/notifications.repository.ts:45-48 | status becomes read and `readAt` is set; nothing else changes |
| `Notifications.MarkAsRead` | src/notifications/notifications.repository.ts:42-50 | not found unless the id exists; otherwise only that row is marked |
| `Notifications.MarkIfUnread` | src/notifications/notifications.repository.ts:53-62 | after `updateMany` no row is an unread one of the caller |
| `Notifications.MarkAll` | src/notifications/notifications.repository.ts:53-62 | the table keeps its ids and loses the caller's unread rows |
| `Notifications.MarkAllAsRead` | src/notifications/notifications.repository.ts:52-65 | returns the number of unread rows of the caller and marks them |
| `Notifications.MarkAllClearsUnread` | src/notifications/notifications.repository.ts:52-80 | afterwards the unread count is 0 |
| `Notifications.MarkAllTouchesOnlyUnread` | src/notifications/notifications.repository.ts:53-62 | read rows and other owners' rows are untouched |
| `Notifications.DeleteNotification` | src/notifications/notifications.repository.ts:67-71 | not found unless the id exists; otherwise exactly that row is removed |
| `Notifications.Generate` | src/notifications/notifications.repository.ts:97-116 | the shared check-then-insert loop computes `GenerateAll` |
| `Notifications.Consider` | src/notifications/notifications.repository.ts:99-115 | one iteration inserts exactly when no blocking notification exists |
| `Notifications.StepAppends` | src/notifications/notifications.repository.ts:108-115 | one step only appends, and what it appends blocks its own candidate |
| `Notifications.GenerateCovers` | src/notifications/notifications.repository.ts:97-116 | after a run every candidate has a blocking notification |
| `Notifications.CoveredIsNoop` | src/notifications/notifications.repository.ts:108 | a run over covered candidates changes nothing |
| `Notifications.SecondRunAddsNothing` | src/notifications/notifications.repository.ts:97-116 | de-duplication: a second run with no reads in between adds nothing |
| `Notifications.GenerateAppends` | src/notifications/notifications.repository.ts:109-114 | a run keeps the old rows, and each row it adds is an unread one of the given type, created now for a candidate and owned by the caller |
| `Notifications.DueWindowMeaning` | src/notifications/notifications.repository.ts:83-95 | the window is tomorrow from 00:00:00 up to 23:59:59, that second excluded, and only pending rows count |
| `Notifications.DueDateCandidates` | src/notifications/notifications.repository.ts:86-97 | one candidate per transaction due tomorrow, in order |
| `Notifications.GenerateDueDateNotifications` | src/notifications/notifications.repository.ts:82-117 | the due-date generator is the loop over those candidates |
| `Notifications.DueDateCovered` | src/notifications/notifications.repository.ts:97-116 | afterwards every transaction due tomorrow has an unread due-date notification |
| `Notifications.BudgetCandidates` | src/notifications/notifications.repository.ts:125-158 | one candidate per current budget at or above 80% |
| `Notifications.GenerateBudgetLimitNotifications` | src/notifications/notifications.repository.ts:119-178 | the budget generator is the loop over those candidates |
| `Notifications.NearLimitMeaning` | src/notifications/notifications.repository.ts:153-158 | the 80% test holds exactly when the amount is positive and 5·spent ≥ 4·amount; a zero budget never qualifies |
| `Notifications.BudgetLimitCovered` | src/notifications/notifications.repository.ts:136-177 | afterwards every current budget at 80% has an unread budget-limit notification |
| `Notifications.DayBeforeIsEarlier` | src/notifications/notifications.repository.ts:204 | the 24-hour bound lies before now |
| `Notifications.RenewalCandidates` | src/notifications/notifications.repository.ts:184-194 | one candidate per active subscription of the caller |
| `Notifications.GenerateSubscriptionRenewalNotifications` | src/notifications/notifications.repository.ts:180-218 | the renewal generator blocks only on an unread notification of the last 24 hours |
| `Notifications.RenewalSecondRun` | src/notifications/notifications.repository.ts:197-216 | a second renewal run at the same instant adds nothing |
| `Notifications.StaleRenewalDoesNotBlock` | src/notifications/notifications.repository.ts:203-205 | an unread renewal notification older than 24 hours does not block |
| `Categories.NameLeTotal` | src/categories/categories.repository.ts:17 | name order is total |
| `Categories.NameLeTransitive` | src/categories/categories.repository.ts:17 | name order is transitive |
| `Categories.ByNameIsTotal` | src/categories/categories.repository.ts:17 | ordering by name is a total preorder |
| `Categories.InNameOrder` | src/categories/categories.repository.ts:17 | every category, as a permutation, in name order |
| `Categories.Start` | src/categories/categories.repository.ts:15-16 | starts at the top without a cursor, right after the row with the cursor's id when there is one, and nowhere for an unknown cursor |
| `Categories.Remaining` | src/categories/categories.repository.ts:13-18 | what the query reaches is sorted, comes from the table, and is empty for an unknown cursor |
| `Categories.GetAllCategories` | src/categories/categories.repository.ts:12-36 | at most `limit` rows from the start; `total` counts the page; `hasNextPage` holds exactly when more than `limit` rows remained, and then `lastCursor` is the last row's id |
| `Categories.FindsOwnId` | src/categories/categories.repository.ts:15 | with distinct ids, the cursor row is found at its own position |
| `Categories.NextPageFollows` | src/categories/categories.repository.ts:14-25 | passing back `lastCursor` reaches exactly the rows after the page, with no overlap |
| `Categories.NextCursor` | src/categories/categories.repository.ts:16-25 | the next query starts right after the last row returned |
| `Categories.SuffixKeysDistinct` | src/categories/categories.repository.ts:22-25 | rows of a page and rows after it have different ids |
| `Categories.FirstPage` | src/categories/categories.repository.ts:13-17 | the first page holds the alphabetically first categories |
| `Transactions.ToUpper` | src/transactions/transactions.repository.ts:16 | upper-casing maps only lower-case letters |
| `Transactions.ToLower` | src/transactions/transactions.repository.ts:16 | lower-casing maps only capital letters |
| `Transactions.LowerAll` | src/transactions/transactions.repository.ts:16 | `toLowerCase` works character by character and keeps the length |
| `Transactions.Normalize` | src/transactions/transactions.repository.ts:16 | the length is kept and the empty name stays empty; the first character is not lower case and the rest are not upper case |
| `Transactions.NormalizeIdempotent` | src/transactions/transactions.repository.ts:16 | normalising twice is normalising once |
| `Transactions.NormalizeIgnoresCase` | src/transactions/transactions.repository.ts:16-31 | two names reach the same category exactly when they differ only in letter case |
| `Transactions.NormalizeExamples` | src/transactions/transactions.repository.ts:16 | `"LAZER"` becomes `"Lazer"` and `"mercado"` becomes `"Mercado"` |
| `Transactions.ReceiptTransaction` | src/transactions/transactions.repository.ts:17-24 | both category columns hold the normalised name, and the owner and the category link are set |
| `Transactions.CreateTransaction` | src/transactions/transactions.repository.ts:15-45 | links the caller's category of that name, or creates it with icon `tag`; afterwards exactly one such category exists and the transaction is appended |
| `Transactions.AddCategory` | src/transactions/transactions.repository.ts:33-37 | the create half appends the category with a fresh id and keeps the invariant |
| `Transactions.SameNameSameRow` | src/transactions/transactions.repository.ts:28-31 | under the `userId_name` key, the caller's categories of one name are one row |

## Left out

- I/O, the database engine and `Promise.all`:
  - Prisma calls are operations on in-memory sequences.
  - The fan-out of budget progress runs sequentially and keeps its input order.
  - Transactions and concurrent writers are not modelled.
- The clock: `new Date()` and `Date.now()` are the parameter `now`.
- Time zones:
  - local time has a fixed offset, so daylight-saving shifts are not modelled;
  - 24 hours before `now` is the same time on the previous calendar day.
- The generic date parser behind `new Date(string)` is the parameter `genericParse`. Its NaN result is `None`.
- `Notifications.TomorrowStart` and `Notifications.TomorrowEnd` stand for `new Date(tomorrow.toDateString())` and `new Date(tomorrow.toDateString() + ' 23:59:59')` (src/notifications/notifications.repository.ts lines 90-91). Both strings go through the generic parser, and the model takes their results to be tomorrow at local midnight and at 23:59:59.000, the hours and minutes that src/notifications/notifications.repository.spec.ts lines 31-35 expect.
- JavaScript numbers:
  - stored amounts are integers (cents) and percentages `real`;
  - `Number(...)` decimal conversion, NaN, `z.coerce` string coercion and floating-point rounding are not modelled.
- Notification message text: the budget-limit message with its `toFixed` formatting is a parameter; the other two messages are modelled literally.
- The budget-limit generator computes each percentage inside its loop. The model computes it through `GetBudgetProgress` before the loop, which gives the same values because the loop writes only the notification table.
- Case mapping: `toUpperCase`/`toLowerCase` are modelled on ASCII letters only.
- Category order:
  - names are compared by code point, not by the database collation;
  - the order among equal names is one the model fixes.
- Sort ties: among rows with equal `createdAt`, `orderBy` fixes no order. The model fixes one order for them.
- Unknown cursors: a cursor id that matches no row gives an empty result here, while Prisma's behaviour for it is unspecified.
- The empty-string cursor, which the source treats as no cursor through its truthiness test, is not modelled (identifiers are numbers).
- UUID format checks on identifiers are not modelled (identifiers are numbers).
- The Prisma schema file is not part of this model. The record fields follow the repositories' use of them.
- `include: { category: true }` and `include: { categoryRel: true }`: the joined category is not added to results.
- `console.log` in `createRecurringTransactions`.
- Prisma's own failures and its error codes for constraint violations are modelled only as the `Result` failures named above.
- The `userId` of a budget update or delete: the source filters by id alone, and so does the model, so any owner's budget can be changed.
- `SubscriptionsSchema.CreateInput`: a body with a fractional day, weekday or month, or a fraction of a cent, gives no row. The schema itself accepts such bodies, as `CreditCardsSchema.FractionalDayAccepted` shows for cards.
- `Subscriptions.CreateRecurringTransactions` and `Subscriptions.AddRecurring` store the corrected row, whose `dueDate` is today's local midnight (the calendar day). The source stores the current instant with its time of day (src/subscriptions/subscriptions.repository.ts lines 41 and 83), which `Subscriptions.RecurringTransactionAsWritten` models.
- Row order of unordered queries: several `findMany` calls (src/budgets/budgets.repository.ts line 72, src/dashboard/dashboard.repository.ts line 25, src/subscriptions/subscriptions.repository.ts line 47, src/notifications/notifications.repository.ts lines 86, 125 and 184) have no `orderBy`, so the database returns their rows in no guaranteed order. The model reads them in table order. This fixes the order of the generators' results and of the recurring run's rows and identifiers, and the first-seen order of the dashboard breakdown, where the source leaves them open.
- `DateUtils.DateInput` has no Invalid Date. For a Date whose time value is NaN, the source builds `new Date(NaN, NaN, NaN)` and returns that Invalid Date, not null (src/utils/date-utils.ts lines 4-8).
- The invoice window and `getCreditCardsWithUsage` are declared in `src/credit-cards/credit-cards.interface.ts` but implemented nowhere, so they are not modelled.
- Authentication, storage, receipt extraction, controllers, modules, schedulers and response envelopes are not part of this model.

## Findings

| source | as written | input that shows it | evidently intended | confidence | as-written member | corrected member |
|---|---|---|---|---|---|---|
| src/utils/date-utils.ts:8-15 | `new Date(y, m, d)` reads years 0 to 99 as 1900 to 1999 | `"0050-06-15"` gives 15 June 1950 | the calendar date as written, year 50 | not executed | `DateUtils.TwoDigitYearShift` | `DateUtils.IsoRoundTrip` |
| src/credit-cards/credit-cards.repository.ts:123-127 | the due date is the due day of the closing month, even when the due day comes before the closing day | closing day 10, due day 5, today 7 March 2024: due 5 March 2024, in the past | the due date after the closing date | not executed | `CreditCards.SummaryDueDateInPastAsWritten` | `CreditCards.GetCreditCardSummaryCorrected` |
| src/subscriptions/subscriptions.repository.ts:42-83 | `dueDate: today` stores the current instant with its time of day | a run at 09:30 stores a due date at 09:30 | today at local midnight, as the repository's test expects | not executed | `Subscriptions.DueDateCarriesTimeAsWritten` | `Subscriptions.RecurringTransaction` |
