/** The request validators of the credit-card endpoints, as predicates
    over the fields of a decoded request (numbers are JavaScript numbers,
    so `real`; a field the request leaves out is `None`). */
module CreditCardsSchema {

  import opened Common
  import opened Calendar
  import opened Seqs
  import opened Store
  import CreditCards

  const Flags: seq<string> := ["visa", "mastercard", "american_express", "elo", "hipercard", "other"]
  const Statuses: seq<string> := ["active", "blocked", "expired", "cancelled"]

  /** The `flag` enum, decoded. */
  function FlagOf(s: string): (r: Option<CardFlag>)
    ensures r.Some? <==> s in Flags
  {
    if s == "visa" then Some(Visa)
    else if s == "mastercard" then Some(Mastercard)
    else if s == "american_express" then Some(AmericanExpress)
    else if s == "elo" then Some(Elo)
    else if s == "hipercard" then Some(Hipercard)
    else if s == "other" then Some(OtherFlag)
    else None
  }

  /** The `status` enum, decoded. */
  function StatusOf(s: string): (r: Option<CardStatus>)
    ensures r.Some? <==> s in Statuses
  {
    if s == "active" then Some(Active)
    else if s == "blocked" then Some(Blocked)
    else if s == "expired" then Some(Expired)
    else if s == "cancelled" then Some(Cancelled)
    else None
  }

  /** `/^\d{4}$/`: exactly four characters, each 0-9. */
  predicate FourDigits(s: string)
  {
    |s| == 4 && forall i :: 0 <= i < 4 ==> '0' <= s[i] <= '9'
  }

  // Field constraints, shared by create and update.

  predicate NameOk(s: string) { |s| >= 1 }
  predicate LimitOk(x: real) { x > 0.0 }
  predicate DayOk(x: real) { 1.0 <= x <= 31.0 }

  /** The fields of a create or update body. */
  datatype CardBody = CardBody(
    name: Option<string>,
    flag: Option<string>,
    lastFourDigits: Option<string>,
    limit: Option<real>,
    closingDay: Option<real>,
    dueDay: Option<real>)

  /** `CreateCreditCardSchema`: every field present and valid. */
  predicate ValidCreate(b: CardBody)
  {
    && b.name.Some? && NameOk(b.name.value)
    && b.flag.Some? && b.flag.value in Flags
    && b.lastFourDigits.Some? && FourDigits(b.lastFourDigits.value)
    && b.limit.Some? && LimitOk(b.limit.value)
    && b.closingDay.Some? && DayOk(b.closingDay.value)
    && b.dueDay.Some? && DayOk(b.dueDay.value)
  }

  /** `UpdateCreditCardSchema`: every field optional, each present one valid,
      plus an optional status. */
  predicate ValidUpdate(b: CardBody, status: Option<string>)
  {
    && (b.name.Some? ==> NameOk(b.name.value))
    && (b.flag.Some? ==> b.flag.value in Flags)
    && (b.lastFourDigits.Some? ==> FourDigits(b.lastFourDigits.value))
    && (b.limit.Some? ==> LimitOk(b.limit.value))
    && (b.closingDay.Some? ==> DayOk(b.closingDay.value))
    && (b.dueDay.Some? ==> DayOk(b.dueDay.value))
    && (status.Some? ==> status.value in Statuses)
  }

  /** Every valid create body is a valid update body, and so is the empty
      one; an update may not set an unknown status. */
  lemma UpdateIsCreateRelaxed(b: CardBody)
    ensures ValidCreate(b) ==> ValidUpdate(b, None)
    ensures ValidUpdate(CardBody(None, None, None, None, None, None), None)
    ensures !ValidUpdate(b, Some("paused"))
  {
  }

  lemma LastFourExamples()
    ensures FourDigits("0042")
    ensures !FourDigits("123") && !FourDigits("12345") && !FourDigits("12a4")
  {
    assert "12a4"[2] == 'a';
  }

  /** Integrality is not required: a closing day of 10.5 validates. */
  lemma FractionalDayAccepted()
    ensures ValidCreate(CardBody(Some("Nubank"), Some("visa"), Some("1234"), Some(5000.0), Some(10.5), Some(20.0)))
  {
    assert "visa" in Flags;
  }

  /** A validated whole closing day gives a next closing date that is never
      before today (for a clock past year 99). */
  lemma ValidatedClosingNotBeforeToday(b: CardBody, today: CalendarDate)
    requires ValidCreate(b) && Whole(b.closingDay.value)
    requires ConstructorYear(today.year) == today.year
    ensures 1 <= b.closingDay.value.Floor <= 31
    ensures DateAtOrBefore(today, CreditCards.NextClosingDate(b.closingDay.value.Floor, today))
  {
    CreditCards.NextClosingNotBeforeToday(b.closingDay.value.Floor, today);
  }

  // The list query.

  datatype CardListQuery = CardListQuery(page: Option<real>, limit: Option<real>, status: Option<string>)

  datatype ListQuery = ListQuery(page: real, limit: real, status: Option<CardStatus>)

  /** `GetCreditCardsSchema`: `page` at least 1 (default 1), `limit` in
      1..100 (default 10), an optional known status. */
  function ParseCardQuery(q: CardListQuery): (r: Option<ListQuery>)
    ensures r.Some? <==>
      && (q.page.None? || q.page.value >= 1.0)
      && (q.limit.None? || 1.0 <= q.limit.value <= 100.0)
      && (q.status.Some? ==> StatusOf(q.status.value).Some?)
    ensures r.Some? && q.status.Some? ==> r.value.status == StatusOf(q.status.value)
    ensures r.Some? ==> 1.0 <= r.value.page && 1.0 <= r.value.limit <= 100.0
    ensures r.Some? ==> (q.page.None? ==> r.value.page == 1.0) && (q.limit.None? ==> r.value.limit == 10.0)
    ensures r.Some? ==> (q.page.Some? ==> r.value.page == q.page.value) && (q.limit.Some? ==> r.value.limit == q.limit.value)
    ensures r.Some? ==> (q.status.None? <==> r.value.status.None?)
  {
    var page := if q.page.Some? then q.page.value else 1.0;
    var limit := if q.limit.Some? then q.limit.value else 10.0;
    var status := if q.status.Some? then StatusOf(q.status.value) else None;
    if page >= 1.0 && 1.0 <= limit <= 100.0 && (q.status.Some? ==> status.Some?) then
      Some(ListQuery(page, limit, status))
    else None
  }

  lemma QueryExamples()
    ensures ParseCardQuery(CardListQuery(None, None, None)) == Some(ListQuery(1.0, 10.0, None))
    ensures ParseCardQuery(CardListQuery(Some(0.0), None, None)).None?
    ensures ParseCardQuery(CardListQuery(None, Some(101.0), None)).None?
    ensures ParseCardQuery(CardListQuery(None, None, Some("paused"))).None?
    ensures ParseCardQuery(CardListQuery(Some(2.0), Some(5.0), Some("blocked"))) == Some(ListQuery(2.0, 5.0, Some(Blocked)))
  {
  }

  /** A validated whole query meets the listing's precondition, and a page
      never holds more than 100 cards. */
  lemma ValidatedPageBounded(cards: seq<CreditCard>, owner: UserId, q: CardListQuery)
    requires ParseCardQuery(q).Some?
    requires Whole(ParseCardQuery(q).value.page) && Whole(ParseCardQuery(q).value.limit)
    ensures var v := ParseCardQuery(q).value;
      var query := CreditCards.CardQuery(v.page.Floor, v.limit.Floor, v.status);
      query.page >= 1 && 1 <= query.limit <= 100
      && |CreditCards.GetCreditCards(cards, owner, Some(query))| <= 100
  {
  }
}
