/** The credit-card repository: the card table's writes, the paged listing
    and the summary with the current debt and the next closing and due
    dates. */
module CreditCards {

  import opened Common
  import opened Calendar
  import opened Seqs
  import opened Store

  /** The validated body of a create request. */
  datatype CreateCardInput = CreateCardInput(
    name: string,
    flag: CardFlag,
    lastFourDigits: string,
    limit: Cents,
    closingDay: int,
    dueDay: int)

  /** The validated body of an update request: every field optional. */
  datatype CardUpdate = CardUpdate(
    name: Option<string>,
    flag: Option<CardFlag>,
    lastFourDigits: Option<string>,
    limit: Option<Cents>,
    closingDay: Option<int>,
    dueDay: Option<int>,
    status: Option<CardStatus>)

  /** The validated list query (defaults already filled in). */
  datatype CardQuery = CardQuery(page: int, limit: int, status: Option<CardStatus>)

  datatype CardSummary = CardSummary(
    creditCard: CreditCard,
    currentDebt: Cents,
    availableLimit: Cents,
    nextClosingDate: Moment,
    nextDueDate: Moment)

  /** The `where: { id, userId }` of every single-card query. */
  function OwnedCard(owner: UserId, id: Id): CreditCard -> bool
  {
    (c: CreditCard) => c.id == id && c.userId == owner
  }

  /** `getCreditCardById`: the caller's card with that id, or none; a card
      of another owner is not found. */
  function GetCreditCardById(cards: seq<CreditCard>, owner: UserId, id: Id): (r: Option<CreditCard>)
    ensures r.None? <==> forall j :: 0 <= j < |cards| ==> !(cards[j].id == id && cards[j].userId == owner)
    ensures r.Some? ==> r.value in cards && r.value.id == id && r.value.userId == owner
  {
    match FirstIndex(cards, OwnedCard(owner, id))
    case None => None
    case Some(i) => Some(cards[i])
  }

  /** With distinct card ids the card found is the only row with that id,
      and the summary reports exactly that card, or fails exactly when there
      is none. */
  lemma CardByIdUnique(cards: seq<CreditCard>, transactions: seq<Transaction>, owner: UserId, id: Id, now: Moment, j: nat)
    requires DistinctBy(cards, CardKey) && j < |cards| && cards[j].id == id
    ensures GetCreditCardById(cards, owner, id) == if cards[j].userId == owner then Some(cards[j]) else None
    ensures GetCreditCardSummary(cards, transactions, owner, id, now).Ok? <==> cards[j].userId == owner
    ensures GetCreditCardSummary(cards, transactions, owner, id, now).Ok? ==>
      GetCreditCardSummary(cards, transactions, owner, id, now).value.creditCard == cards[j]
  {
    match FirstIndex(cards, OwnedCard(owner, id))
    case None =>
    case Some(i) =>
      assert CardKey(cards[i]) == CardKey(cards[j]);
  }

  // ---------------------------------------------------------------------
  // Writes

  /** `createCreditCard`: the new card starts with its whole limit
      available, active and owned by the caller. */
  method CreateCreditCard(db: Database, owner: UserId, data: CreateCardInput, now: Moment) returns (card: CreditCard)
    requires db.Valid()
    modifies db`creditCards, db`nextId
    ensures db.Valid()
    ensures card.id == old(db.nextId) && card.userId == owner
    ensures card.availableLimit == card.limit == data.limit
    ensures card.name == data.name && card.flag == data.flag && card.lastFourDigits == data.lastFourDigits
    ensures card.closingDay == data.closingDay && card.dueDay == data.dueDay
    ensures card.status == Active && card.createdAt == now
    ensures db.creditCards == old(db.creditCards) + [card]
  {
    var id := db.FreshId();
    card := CreditCard(id, owner, data.name, data.flag, data.lastFourDigits, data.limit, data.limit,
                       data.closingDay, data.dueDay, Active, now);
    AppendFresh(db.creditCards, card, CardKey, id);
    db.creditCards := db.creditCards + [card];
  }

  /** The fields an update carries replace the stored ones; nothing else
      changes (in particular `availableLimit` is not recomputed when
      `limit` changes). */
  function ApplyCardUpdate(c: CreditCard, u: CardUpdate): (r: CreditCard)
    ensures r.id == c.id && r.userId == c.userId && r.createdAt == c.createdAt
    ensures r.availableLimit == c.availableLimit
    ensures r.limit == (if u.limit.Some? then u.limit.value else c.limit)
    ensures r.status == (if u.status.Some? then u.status.value else c.status)
    ensures u == CardUpdate(None, None, None, None, None, None, None) ==> r == c
  {
    c.(name := if u.name.Some? then u.name.value else c.name,
       flag := if u.flag.Some? then u.flag.value else c.flag,
       lastFourDigits := if u.lastFourDigits.Some? then u.lastFourDigits.value else c.lastFourDigits,
       limit := if u.limit.Some? then u.limit.value else c.limit,
       closingDay := if u.closingDay.Some? then u.closingDay.value else c.closingDay,
       dueDay := if u.dueDay.Some? then u.dueDay.value else c.dueDay,
       status := if u.status.Some? then u.status.value else c.status)
  }

  /** `updateCreditCard`: fails when the caller owns no card with that id. */
  method UpdateCreditCard(db: Database, owner: UserId, id: Id, data: CardUpdate) returns (r: Result<CreditCard>)
    requires db.Valid()
    modifies db`creditCards
    ensures db.Valid()
    ensures match FirstIndex(old(db.creditCards), OwnedCard(owner, id))
      case None => r == Err(NotFound("credit card")) && db.creditCards == old(db.creditCards)
      case Some(i) =>
        r == Ok(ApplyCardUpdate(old(db.creditCards)[i], data)) && db.creditCards == old(db.creditCards)[i := r.value]
  {
    match FirstIndex(db.creditCards, OwnedCard(owner, id))
    case None =>
      r := Err(NotFound("credit card"));
    case Some(i) =>
      var updated := ApplyCardUpdate(db.creditCards[i], data);
      ReplaceKeepsKeys(db.creditCards, i, updated, CardKey, db.nextId);
      db.creditCards := db.creditCards[i := updated];
      r := Ok(updated);
  }

  /** `deleteCreditCard`. */
  method DeleteCreditCard(db: Database, owner: UserId, id: Id) returns (r: Result<()>)
    requires db.Valid()
    modifies db`creditCards
    ensures db.Valid()
    ensures match FirstIndex(old(db.creditCards), OwnedCard(owner, id))
      case None => r == Err(NotFound("credit card")) && db.creditCards == old(db.creditCards)
      case Some(i) => r == Ok(()) && db.creditCards == RemoveAt(old(db.creditCards), i)
  {
    match FirstIndex(db.creditCards, OwnedCard(owner, id))
    case None =>
      r := Err(NotFound("credit card"));
    case Some(i) =>
      RemoveKeepsKeys(db.creditCards, i, CardKey, db.nextId);
      db.creditCards := RemoveAt(db.creditCards, i);
      r := Ok(());
  }

  /** `updateAvailableLimit`: overwrites only the card's `availableLimit`. */
  method UpdateAvailableLimit(db: Database, owner: UserId, id: Id, amount: Cents) returns (r: Result<CreditCard>)
    requires db.Valid()
    modifies db`creditCards
    ensures db.Valid()
    ensures match FirstIndex(old(db.creditCards), OwnedCard(owner, id))
      case None => r == Err(NotFound("credit card")) && db.creditCards == old(db.creditCards)
      case Some(i) =>
        && r == Ok(old(db.creditCards)[i].(availableLimit := amount))
        && db.creditCards == old(db.creditCards)[i := r.value]
  {
    match FirstIndex(db.creditCards, OwnedCard(owner, id))
    case None =>
      r := Err(NotFound("credit card"));
    case Some(i) =>
      var updated := db.creditCards[i].(availableLimit := amount);
      ReplaceKeepsKeys(db.creditCards, i, updated, CardKey, db.nextId);
      db.creditCards := db.creditCards[i := updated];
      r := Ok(updated);
  }

  // ---------------------------------------------------------------------
  // Listing

  /** The caller's cards, of the given status when one is given. */
  predicate CardMatch(owner: UserId, status: Option<CardStatus>, c: CreditCard)
  {
    c.userId == owner && (status.None? || c.status == status.value)
  }

  function CardMatches(owner: UserId, status: Option<CardStatus>): CreditCard -> bool
  {
    (c: CreditCard) => CardMatch(owner, status, c)
  }

  /** Every matching card, newest first. */
  function CardListing(cards: seq<CreditCard>, owner: UserId, status: Option<CardStatus>): (r: seq<CreditCard>)
    ensures multiset(r) == multiset(Filter(cards, CardMatches(owner, status)))
    ensures SortedBy(r, NewestFirst(CardCreatedAt))
  {
    NewestFirstIsTotal(CardCreatedAt);
    SortBySorted(Filter(cards, CardMatches(owner, status)), NewestFirst(CardCreatedAt));
    SortBy(Filter(cards, CardMatches(owner, status)), NewestFirst(CardCreatedAt))
  }

  /** `getCreditCards`: without a query every card of the caller; with one,
      page `page` of `limit` cards of the listing. */
  function GetCreditCards(cards: seq<CreditCard>, owner: UserId, filters: Option<CardQuery>): (r: seq<CreditCard>)
    requires filters.Some? ==> filters.value.page >= 1 && filters.value.limit >= 0
    ensures forall i :: 0 <= i < |r| ==> r[i] in cards && r[i].userId == owner
    ensures filters.Some? && filters.value.status.Some? ==>
      forall i :: 0 <= i < |r| ==> r[i].status == filters.value.status.value
    ensures SortedBy(r, NewestFirst(CardCreatedAt))
    ensures filters.None? ==> multiset(r) == multiset(Filter(cards, CardMatches(owner, None)))
    ensures filters.Some? ==>
      var listing := CardListing(cards, owner, filters.value.status);
      var skip := Skip(filters.value);
      && |r| <= filters.value.limit
      && (skip <= |listing| ==> |r| == Min(filters.value.limit, |listing| - skip))
      && forall i :: 0 <= i < |r| ==> skip + i < |listing| && r[i] == listing[skip + i]
  {
    match filters
    case None =>
      ListingRows(cards, owner, None, 0, |cards|);
      CardListing(cards, owner, None)
    case Some(q) =>
      var skip := Skip(q);
      ListingRows(cards, owner, q.status, skip, q.limit);
      Page(CardListing(cards, owner, q.status), skip, q.limit)
  }

  /** The cards before the page: `(page - 1) * limit`. */
  function Skip(q: CardQuery): nat
    requires q.page >= 1 && q.limit >= 0
  {
    var before: nat := q.page - 1;
    var limit: nat := q.limit;
    before * limit
  }

  /** Any window of the listing holds matching cards of the table, newest
      first; the whole listing is that window when it starts at 0 and is
      at least as long as the table. */
  lemma ListingRows(cards: seq<CreditCard>, owner: UserId, status: Option<CardStatus>, skip: nat, take: nat)
    ensures var r := Page(CardListing(cards, owner, status), skip, take);
      && (forall i :: 0 <= i < |r| ==> r[i] in cards && CardMatch(owner, status, r[i]))
      && SortedBy(r, NewestFirst(CardCreatedAt))
    ensures forall i :: 0 <= i < |CardListing(cards, owner, status)| ==>
      CardListing(cards, owner, status)[i] in cards && CardMatch(owner, status, CardListing(cards, owner, status)[i])
  {
    var listing := CardListing(cards, owner, status);
    var rows := Filter(cards, CardMatches(owner, status));
    forall i | 0 <= i < |listing| ensures listing[i] in cards && CardMatch(owner, status, listing[i]) {
      assert listing[i] in multiset(listing);
      assert listing[i] in multiset(rows);
      assert listing[i] in rows;
    }
  }

  // ---------------------------------------------------------------------
  // Summary

  predicate DebtRow(owner: UserId, cardId: Id, t: Transaction)
  {
    t.userId == owner && t.creditCardId == Some(cardId) && t.status == Pending
  }

  /** The `_sum` of the amounts of the caller's pending transactions on the
      card, whatever their type or date; 0 when there are none. */
  function PendingDebt(transactions: seq<Transaction>, owner: UserId, cardId: Id): Cents
  {
    SumOf(Filter(transactions, DebtRows(owner, cardId)), TransactionAmount)
  }

  function DebtRows(owner: UserId, cardId: Id): Transaction -> bool
  {
    (t: Transaction) => DebtRow(owner, cardId, t)
  }

  /** Adding a transaction adds its amount to the debt exactly when it is a
      pending transaction of the caller on that card. */
  lemma PendingDebtSnoc(transactions: seq<Transaction>, t: Transaction, owner: UserId, cardId: Id)
    ensures PendingDebt(transactions + [t], owner, cardId)
         == PendingDebt(transactions, owner, cardId) + (if DebtRow(owner, cardId, t) then t.amount else 0)
  {
    var p := DebtRows(owner, cardId);
    var rows := Filter(transactions, p);
    FilterSnoc(transactions, t, p);
    assert p(t) == DebtRow(owner, cardId, t);
    if p(t) {
      SumOfSnoc(rows, t, TransactionAmount);
    } else {
      assert rows + [] == rows;
    }
  }

  lemma NoPendingNoDebt(transactions: seq<Transaction>, owner: UserId, cardId: Id)
    requires forall i :: 0 <= i < |transactions| ==> !DebtRow(owner, cardId, transactions[i])
    ensures PendingDebt(transactions, owner, cardId) == 0
  {
    FilterNone(transactions, DebtRows(owner, cardId));
  }

  /** The month index of the next closing: this month while today's day
      has not passed `closingDay`, otherwise the next one (index 12 is
      January of the next year). */
  function ClosingMonthIndex(closingDay: int, today: CalendarDate): int
  {
    if today.day <= closingDay then today.month - 1 else today.month
  }

  /** `new Date(currentYear, monthIndex, closingDay)`. */
  function NextClosingDate(closingDay: int, today: CalendarDate): CalendarDate
  {
    LocalDate(today.year, ClosingMonthIndex(closingDay, today), closingDay)
  }

  /** The due date as written: the due day in the closing month. */
  function NextDueDateAsWritten(closingDay: int, dueDay: int, today: CalendarDate): CalendarDate
  {
    LocalDate(today.year, ClosingMonthIndex(closingDay, today), dueDay)
  }

  /** The due date of the invoice that closes next: in the closing month
      when the due day comes after the closing day, otherwise in the month
      after it. */
  function NextDueDate(closingDay: int, dueDay: int, today: CalendarDate): CalendarDate
  {
    LocalDate(today.year, ClosingMonthIndex(closingDay, today) + (if dueDay > closingDay then 0 else 1), dueDay)
  }

  /** `getCreditCardSummary`, as written: both cycle dates use this
      month's or the next month's index, so the due date is the due day in
      the closing month. */
  function GetCreditCardSummary(cards: seq<CreditCard>, transactions: seq<Transaction>, owner: UserId, id: Id, now: Moment)
    : (r: Result<CardSummary>)
    ensures FirstIndex(cards, OwnedCard(owner, id)).None? <==> r.Err?
    ensures r.Err? ==> r.failure == NotFound("Credit card not found")
    ensures r.Ok? ==>
      && r.value.creditCard in cards && r.value.creditCard.id == id && r.value.creditCard.userId == owner
      && r.value.currentDebt == PendingDebt(transactions, owner, id)
      && r.value.availableLimit == r.value.creditCard.availableLimit
      && r.value.nextClosingDate == Moment(NextClosingDate(r.value.creditCard.closingDay, now.date), 0)
      && r.value.nextDueDate == Moment(NextDueDateAsWritten(r.value.creditCard.closingDay, r.value.creditCard.dueDay, now.date), 0)
  {
    match FirstIndex(cards, OwnedCard(owner, id))
    case None => Err(NotFound("Credit card not found"))
    case Some(i) =>
      var card := cards[i];
      Ok(CardSummary(
        card,
        PendingDebt(transactions, owner, id),
        card.availableLimit,
        Moment(NextClosingDate(card.closingDay, now.date), 0),
        Moment(NextDueDateAsWritten(card.closingDay, card.dueDay, now.date), 0)))
  }

  /** The summary with the corrected due date: everything else is the
      summary as written. */
  function GetCreditCardSummaryCorrected(cards: seq<CreditCard>, transactions: seq<Transaction>, owner: UserId, id: Id, now: Moment)
    : (r: Result<CardSummary>)
    ensures r.Ok? <==> GetCreditCardSummary(cards, transactions, owner, id, now).Ok?
    ensures r.Err? ==> r == GetCreditCardSummary(cards, transactions, owner, id, now)
    ensures r.Ok? ==>
      var s := GetCreditCardSummary(cards, transactions, owner, id, now).value;
      r.value == s.(nextDueDate := Moment(NextDueDate(s.creditCard.closingDay, s.creditCard.dueDay, now.date), 0))
  {
    match GetCreditCardSummary(cards, transactions, owner, id, now)
    case Err(f) => Err(f)
    case Ok(s) => Ok(s.(nextDueDate := Moment(NextDueDate(s.creditCard.closingDay, s.creditCard.dueDay, now.date), 0)))
  }

  // ---------------------------------------------------------------------
  // Properties of the cycle dates

  /** The calendar month that ClosingMonthIndex names. */
  function ClosingYear(closingDay: int, today: CalendarDate): int
  {
    if today.day <= closingDay then today.year else NextMonthYear(today.year, today.month)
  }

  function ClosingMonth(closingDay: int, today: CalendarDate): int
  {
    if today.day <= closingDay then today.month else NextMonth(today.month)
  }

  /** LocalDate(today.year, ClosingMonthIndex, day) counts `day` from the
      first of the closing month (for a year the constructor reads as
      written). */
  lemma ClosingMonthDayNumber(closingDay: int, today: CalendarDate, day: int)
    requires ConstructorYear(today.year) == today.year
    ensures 1 <= ClosingMonth(closingDay, today) <= 12
    ensures DayNumberOf(LocalDate(today.year, ClosingMonthIndex(closingDay, today), day))
         == DayNumber(ClosingYear(closingDay, today), ClosingMonth(closingDay, today), 1) + day - 1
  {
    var m, mi := today.month, ClosingMonthIndex(closingDay, today);
    MakeDateIsMakeDay(today.year, mi, day);
    if today.day <= closingDay {
      assert mi / 12 == 0 && mi % 12 + 1 == m;
    } else {
      assert mi / 12 == (if m == 12 then 1 else 0) && mi % 12 + 1 == NextMonth(m);
    }
  }

  /** The first of the closing month is at most today's month start, or
      the next month's start when the day has passed. */
  lemma ClosingMonthStart(closingDay: int, today: CalendarDate)
    ensures today.day <= closingDay ==>
      DayNumber(ClosingYear(closingDay, today), ClosingMonth(closingDay, today), 1) + closingDay - 1 >= DayNumberOf(today)
    ensures today.day > closingDay ==>
      DayNumber(ClosingYear(closingDay, today), ClosingMonth(closingDay, today), 1) > DayNumberOf(today)
  {
    DayNumberFromMonthStart(today);
    MonthLength(today.year, today.month);
  }

  /** The next closing date is never before today, even when `closingDay`
      overflows a short month (for a clock past year 99, whose year the
      constructor reads as written). */
  lemma NextClosingNotBeforeToday(closingDay: int, today: CalendarDate)
    requires 1 <= closingDay
    requires ConstructorYear(today.year) == today.year
    ensures DateAtOrBefore(today, NextClosingDate(closingDay, today))
  {
    ClosingMonthDayNumber(closingDay, today, closingDay);
    ClosingMonthStart(closingDay, today);
    DayNumberOrder(today, NextClosingDate(closingDay, today));
  }

  /** The closing month is this month while today's day has not passed
      `closingDay` and the next one otherwise, with December followed by
      January of the next year; a `closingDay` the month lacks rolls over
      into the following month. */
  lemma NextClosingDateCases(closingDay: int, today: CalendarDate)
    requires 1 <= closingDay <= 31
    requires ConstructorYear(today.year) == today.year
    ensures var y, m := today.year, today.month;
      var cy := if today.day <= closingDay then y else NextMonthYear(y, m);
      var cm := if today.day <= closingDay then m else NextMonth(m);
      NextClosingDate(closingDay, today)
        == if closingDay <= DaysInMonth(cy, cm) then Date(cy, cm, closingDay)
           else Date(NextMonthYear(cy, cm), NextMonth(cm), closingDay - DaysInMonth(cy, cm))
  {
    var m := today.month;
    MakeDateInMonth(today.year, ClosingMonthIndex(closingDay, today), closingDay);
    assert (m - 1) / 12 == 0 && (m - 1) % 12 + 1 == m;
    assert m / 12 == (if m == 12 then 1 else 0) && m % 12 + 1 == NextMonth(m);
  }

  /** After today's day has passed `closingDay` in December, the next
      closing is in January of the following year. */
  lemma DecemberRollsOver(closingDay: int, today: CalendarDate)
    requires 1 <= closingDay <= 31
    requires ConstructorYear(today.year) == today.year
    requires today.month == 12 && today.day > closingDay
    ensures NextClosingDate(closingDay, today) == Date(today.year + 1, 1, closingDay)
  {
    NextClosingDateCases(closingDay, today);
  }

  /** With the due day before today's day and today's day not past the
      closing day, the due date as written lies in the past: closing day 10,
      due day 5, today 7 March 2024 gives 5 March 2024. */
  lemma DueDateInPastAsWritten()
    ensures NextDueDateAsWritten(10, 5, Date(2024, 3, 7)) == Date(2024, 3, 5)
    ensures DateBefore(NextDueDateAsWritten(10, 5, Date(2024, 3, 7)), Date(2024, 3, 7))
  {
    MakeDateOfValid(Date(2024, 3, 5));
  }

  /** The summary as written reports a due date before today for a card
      with closing day 10 and due day 5 on 7 March 2024; the corrected
      summary reports 5 April 2024. */
  lemma SummaryDueDateInPastAsWritten(card: CreditCard, transactions: seq<Transaction>, ms: TimeOfDay)
    requires card.closingDay == 10 && card.dueDay == 5
    ensures var now := Moment(Date(2024, 3, 7), ms);
      var r := GetCreditCardSummary([card], transactions, card.userId, card.id, now);
      r.Ok? && r.value.nextDueDate == Moment(Date(2024, 3, 5), 0) && DateBefore(r.value.nextDueDate.date, now.date)
    ensures var now := Moment(Date(2024, 3, 7), ms);
      var r := GetCreditCardSummaryCorrected([card], transactions, card.userId, card.id, now);
      r.Ok? && r.value.nextDueDate == Moment(Date(2024, 4, 5), 0)
  {
    DueDateInPastAsWritten();
    MakeDateOfValid(Date(2024, 4, 5));
    assert FirstIndex([card], OwnedCard(card.userId, card.id)) == Some(0);
  }

  /** The corrected summary never reports a due date before today (for a
      clock whose year the constructor reads as written). */
  lemma CorrectedSummaryDueNotBeforeToday(cards: seq<CreditCard>, transactions: seq<Transaction>, owner: UserId, id: Id, now: Moment)
    requires ConstructorYear(now.date.year) == now.date.year
    requires forall j :: 0 <= j < |cards| ==> 1 <= cards[j].closingDay && 1 <= cards[j].dueDay
    ensures var r := GetCreditCardSummaryCorrected(cards, transactions, owner, id, now);
      r.Ok? ==> DateAtOrBefore(now.date, r.value.nextDueDate.date)
  {
    var r := GetCreditCardSummaryCorrected(cards, transactions, owner, id, now);
    if r.Ok? {
      var c := r.value.creditCard;
      assert c in cards;
      NextDueDateFollowsClosing(c.closingDay, c.dueDay, now.date);
    }
  }

  /** LocalDate(today.year, ClosingMonthIndex + 1, day) counts `day` from
      the first of the month after the closing month. */
  lemma FollowingMonthDayNumber(closingDay: int, today: CalendarDate, day: int)
    requires ConstructorYear(today.year) == today.year
    ensures var cy, cm := ClosingYear(closingDay, today), ClosingMonth(closingDay, today);
      1 <= cm <= 12 &&
      DayNumberOf(LocalDate(today.year, ClosingMonthIndex(closingDay, today) + 1, day))
        == DayNumber(NextMonthYear(cy, cm), NextMonth(cm), 1) + day - 1
  {
    var m, mi := today.month, ClosingMonthIndex(closingDay, today) + 1;
    MakeDateIsMakeDay(today.year, mi, day);
    if today.day <= closingDay {
      assert mi / 12 == (if m == 12 then 1 else 0) && mi % 12 + 1 == NextMonth(m);
    } else if m == 12 {
      assert mi / 12 == 1 && mi % 12 + 1 == 2;
    } else if m == 11 {
      assert mi / 12 == 1 && mi % 12 + 1 == 1;
    } else {
      assert mi / 12 == 0 && mi % 12 + 1 == m + 2;
    }
  }

  /** The corrected due date follows the next closing date, unless the due
      day is not after the closing day and the closing day overflowed its
      month; in every case it is not before today. */
  lemma NextDueDateFollowsClosing(closingDay: int, dueDay: int, today: CalendarDate)
    requires 1 <= closingDay && 1 <= dueDay
    requires ConstructorYear(today.year) == today.year
    ensures DateAtOrBefore(today, NextDueDate(closingDay, dueDay, today))
    ensures dueDay > closingDay || closingDay <= DaysInMonth(ClosingYear(closingDay, today), ClosingMonth(closingDay, today)) ==>
      DateBefore(NextClosingDate(closingDay, today), NextDueDate(closingDay, dueDay, today))
  {
    var closing := NextClosingDate(closingDay, today);
    var due := NextDueDate(closingDay, dueDay, today);
    var cy, cm := ClosingYear(closingDay, today), ClosingMonth(closingDay, today);
    ClosingMonthDayNumber(closingDay, today, closingDay);
    ClosingMonthStart(closingDay, today);
    if dueDay > closingDay {
      ClosingMonthDayNumber(closingDay, today, dueDay);
    } else {
      FollowingMonthDayNumber(closingDay, today, dueDay);
      MonthLength(cy, cm);
      DayNumberFromMonthStart(today);
    }
    DayNumberOrder(today, closing);
    DayNumberOrder(closing, due);
    DayNumberOrder(today, due);
  }

  /** The scenarios of an invoice that has not closed yet and of one that
      has: closing day 10 with due day 20 on 5 March 2024, and closing day
      10 with due day 5 on 15 March 2024. */
  lemma CycleExamples()
    ensures NextClosingDate(10, Date(2024, 3, 5)) == Date(2024, 3, 10)
    ensures NextDueDate(10, 20, Date(2024, 3, 5)) == Date(2024, 3, 20)
    ensures NextClosingDate(10, Date(2024, 3, 15)) == Date(2024, 4, 10)
    ensures NextDueDate(10, 5, Date(2024, 3, 15)) == Date(2024, 5, 5)
    ensures NextDueDateAsWritten(10, 5, Date(2024, 3, 15)) == Date(2024, 4, 5)
  {
    MakeDateOfValid(Date(2024, 3, 10));
    MakeDateOfValid(Date(2024, 3, 20));
    MakeDateOfValid(Date(2024, 4, 10));
    MakeDateOfValid(Date(2024, 5, 5));
    MakeDateOfValid(Date(2024, 4, 5));
  }
}
