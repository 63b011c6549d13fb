/** The request validators of the subscription endpoints, as predicates
    over the fields of a decoded request (numbers are JavaScript numbers,
    so `real`; a field the request leaves out is `None`). */
module SubscriptionsSchema {

  import opened Common
  import opened Calendar
  import opened Store
  import Subscriptions

  const Frequencies: seq<string> := ["weekly", "monthly", "yearly"]

  /** The `frequency` enum, decoded. */
  function FrequencyOf(s: string): (r: Option<Frequency>)
    ensures r.Some? <==> s in Frequencies
  {
    if s == "weekly" then Some(Weekly)
    else if s == "monthly" then Some(Monthly)
    else if s == "yearly" then Some(Yearly)
    else None
  }

  // Field constraints, shared by create and update.

  predicate DescriptionOk(s: string) { |s| >= 1 }
  predicate AmountOk(x: real) { x > 0.0 }
  predicate DayOfMonthOk(x: real) { 1.0 <= x <= 31.0 }
  predicate DayOfWeekOk(x: real) { 0.0 <= x <= 6.0 }
  predicate MonthOk(x: real) { 1.0 <= x <= 12.0 }

  /** The fields of a create or update body; `categoryId` is checked to be
      a UUID, which the model's numeric identifiers always are. */
  datatype SubscriptionBody = SubscriptionBody(
    description: Option<string>,
    amount: Option<real>,
    categoryId: Option<Id>,
    frequency: Option<string>,
    dayOfMonth: Option<real>,
    dayOfWeek: Option<real>,
    month: Option<real>)

  /** The anchors: optional, each in its own range, however the frequency
      is set. */
  predicate AnchorsOk(b: SubscriptionBody)
  {
    && (b.dayOfMonth.Some? ==> DayOfMonthOk(b.dayOfMonth.value))
    && (b.dayOfWeek.Some? ==> DayOfWeekOk(b.dayOfWeek.value))
    && (b.month.Some? ==> MonthOk(b.month.value))
  }

  /** `CreateSubscriptionSchema`. */
  predicate ValidCreate(b: SubscriptionBody)
  {
    && b.description.Some? && DescriptionOk(b.description.value)
    && b.amount.Some? && AmountOk(b.amount.value)
    && b.categoryId.Some?
    && b.frequency.Some? && b.frequency.value in Frequencies
    && AnchorsOk(b)
  }

  /** `UpdateSubscriptionSchema`: every field optional, `isActive` too. */
  predicate ValidUpdate(b: SubscriptionBody, isActive: Option<bool>)
  {
    && (b.description.Some? ==> DescriptionOk(b.description.value))
    && (b.amount.Some? ==> AmountOk(b.amount.value))
    && (b.frequency.Some? ==> b.frequency.value in Frequencies)
    && AnchorsOk(b)
  }

  /** Every valid create body is a valid update body, with or without
      `isActive`, and so is the empty body. */
  lemma UpdateIsCreateRelaxed(b: SubscriptionBody, isActive: Option<bool>)
    ensures ValidCreate(b) ==> ValidUpdate(b, isActive)
    ensures ValidUpdate(SubscriptionBody(None, None, None, None, None, None, None), isActive)
  {
  }

  /** `GetAllSubscriptionsSchema`: optional month 1..12 and year
      1900..2100. */
  predicate ValidQuery(month: Option<real>, year: Option<real>)
  {
    && (month.Some? ==> MonthOk(month.value))
    && (year.Some? ==> 1900.0 <= year.value <= 2100.0)
  }

  /** The subscription row a create body produces, when its numbers are
      whole (the amount in cents). */
  function CreateInput(b: SubscriptionBody): (r: Option<Subscriptions.CreateSubscriptionInput>)
    requires ValidCreate(b)
    ensures r.Some? <==>
      && Whole(b.amount.value * 100.0)
      && (b.dayOfMonth.Some? ==> Whole(b.dayOfMonth.value))
      && (b.dayOfWeek.Some? ==> Whole(b.dayOfWeek.value))
      && (b.month.Some? ==> Whole(b.month.value))
    ensures r.Some? ==> r.value.description == b.description.value && r.value.amount > 0
    ensures r.Some? ==> r.value.amount as real == b.amount.value * 100.0 && r.value.categoryId == b.categoryId.value
    ensures r.Some? ==>
      && (b.dayOfMonth.Some? <==> r.value.dayOfMonth.Some?)
      && (b.dayOfMonth.Some? ==> r.value.dayOfMonth.value as real == b.dayOfMonth.value)
    ensures r.Some? ==>
      && (b.dayOfWeek.Some? <==> r.value.dayOfWeek.Some?)
      && (b.dayOfWeek.Some? ==> r.value.dayOfWeek.value as real == b.dayOfWeek.value)
    ensures r.Some? ==>
      && (b.month.Some? <==> r.value.month.Some?)
      && (b.month.Some? ==> r.value.month.value as real == b.month.value)
    ensures r.Some? ==> r.value.frequency == FrequencyOf(b.frequency.value).value
    ensures r.Some? && r.value.dayOfWeek.Some? ==> 0 <= r.value.dayOfWeek.value <= 6
    ensures r.Some? && r.value.dayOfMonth.Some? ==> 1 <= r.value.dayOfMonth.value <= 31
    ensures r.Some? && r.value.month.Some? ==> 1 <= r.value.month.value <= 12
    ensures r.Some? ==> (r.value.dayOfMonth.None? <==> b.dayOfMonth.None?) && (r.value.dayOfWeek.None? <==> b.dayOfWeek.None?)
  {
    var cents := b.amount.value * 100.0;
    if cents != cents.Floor as real then None
    else if b.dayOfMonth.Some? && !Whole(b.dayOfMonth.value) then None
    else if b.dayOfWeek.Some? && !Whole(b.dayOfWeek.value) then None
    else if b.month.Some? && !Whole(b.month.value) then None
    else
      Some(Subscriptions.CreateSubscriptionInput(
        b.description.value, cents.Floor, b.categoryId.value, FrequencyOf(b.frequency.value).value,
        WholeOf(b.dayOfMonth), WholeOf(b.dayOfWeek), WholeOf(b.month)))
  }

  /** Nothing ties the anchors to the frequency: a monthly body without a
      day of the month validates, and the subscription it creates is never
      selected by the recurrence rule, on any day. */
  lemma MonthlyWithoutDayValidates(s: Subscription, owner: UserId, today: CalendarDate)
    requires s.frequency == Monthly && s.dayOfMonth.None?
    ensures ValidCreate(SubscriptionBody(Some("Streaming"), Some(39.9), Some(7), Some("monthly"), None, None, None))
    ensures !Subscriptions.DueToday(s, owner, today)
  {
    Subscriptions.MissingAnchorNeverSelected(s, owner, today);
    assert "monthly" in Frequencies;
  }

  /** A weekly body validates with a day of the month and no day of the
      week; it is never selected either. */
  lemma WeeklyWithWrongAnchor(s: Subscription, owner: UserId, today: CalendarDate)
    requires s.frequency == Weekly && s.dayOfWeek.None?
    ensures ValidCreate(SubscriptionBody(Some("Gym"), Some(99.0), Some(3), Some("weekly"), Some(5.0), None, None))
    ensures !Subscriptions.DueToday(s, owner, today)
  {
    Subscriptions.MissingAnchorNeverSelected(s, owner, today);
    assert "weekly" in Frequencies;
  }

  lemma AnchorRangeExamples()
    ensures !ValidCreate(SubscriptionBody(Some("Gym"), Some(99.0), Some(3), Some("weekly"), None, Some(7.0), None))
    ensures !ValidCreate(SubscriptionBody(Some("Gym"), Some(0.0), Some(3), Some("weekly"), None, Some(1.0), None))
    ensures !ValidCreate(SubscriptionBody(Some(""), Some(10.0), Some(3), Some("weekly"), None, Some(1.0), None))
    ensures !ValidCreate(SubscriptionBody(Some("Gym"), Some(10.0), Some(3), Some("daily"), None, Some(1.0), None))
    ensures ValidQuery(Some(12.0), Some(1900.0)) && !ValidQuery(Some(13.0), None) && !ValidQuery(None, Some(2101.0))
  {
  }
}
