/** The notification repository: creating, listing, reading and deleting
    notifications, and the three generators that add one notification per
    due transaction, per budget near its limit and per active
    subscription, unless an unread one for the same row already exists. */
module Notifications {

  import opened Common
  import opened Calendar
  import opened Seqs
  import opened Store
  import Budgets

  /** The body of `createNotification`. */
  datatype NotificationInput = NotificationInput(
    title: string,
    message: string,
    kind: NotificationType,
    relatedId: Option<Id>)

  /** The default `take` of `getNotifications`. */
  const DefaultLimit: nat := 50

  /** `createNotification`: unread, owned by the caller, created now. */
  method CreateNotification(db: Database, owner: UserId, data: NotificationInput, now: Moment) returns (n: Notification)
    requires db.Valid()
    modifies db`notifications, db`nextId
    ensures db.Valid()
    ensures n == Notification(old(db.nextId), owner, data.title, data.message, data.kind, data.relatedId, Unread, None, now)
    ensures db.notifications == old(db.notifications) + [n]
    ensures db.nextId == old(db.nextId) + 1
  {
    var id := db.FreshId();
    n := Notification(id, owner, data.title, data.message, data.kind, data.relatedId, Unread, None, now);
    AppendFresh(db.notifications, n, NotificationKey, id);
    db.notifications := db.notifications + [n];
  }

  // ---------------------------------------------------------------------
  // Listing and counting

  /** The `where` of `getNotifications`: the caller's rows, of the given
      status when there is one. */
  function ListedRows(owner: UserId, status: Option<NotificationStatus>): Notification -> bool
  {
    (n: Notification) => n.userId == owner && (status.Some? ==> n.status == status.value)
  }

  /** All the matching rows, newest first. */
  function Listing(notifications: seq<Notification>, owner: UserId, status: Option<NotificationStatus>): (r: seq<Notification>)
    ensures multiset(r) == multiset(Filter(notifications, ListedRows(owner, status)))
    ensures SortedBy(r, NewestFirst(NotificationCreatedAt))
  {
    var rows := Filter(notifications, ListedRows(owner, status));
    NewestFirstIsTotal(NotificationCreatedAt);
    SortBySorted(rows, NewestFirst(NotificationCreatedAt));
    SortBy(rows, NewestFirst(NotificationCreatedAt))
  }

  /** `getNotifications(status, limit)`: the `limit` newest of them. */
  function GetNotifications(notifications: seq<Notification>, owner: UserId, status: Option<NotificationStatus>, limit: nat)
    : (r: seq<Notification>)
    ensures |r| == Min(limit, |Filter(notifications, ListedRows(owner, status))|)
    ensures forall i :: 0 <= i < |r| ==>
      r[i] in notifications && r[i].userId == owner && (status.Some? ==> r[i].status == status.value)
    ensures SortedBy(r, NewestFirst(NotificationCreatedAt))
    ensures r == Listing(notifications, owner, status)[..|r|]
  {
    var listing := Listing(notifications, owner, status);
    var r := Page(listing, 0, limit);
    forall i | 0 <= i < |r| ensures r[i] in notifications && ListedRows(owner, status)(r[i]) {
      assert r[i] == listing[i];
      assert listing[i] in multiset(listing);
    }
    assert r == listing[..|r|];
    r
  }

  /** With the default limit a call returns at most 50 rows, and the whole
      listing when the caller has no more than 50 matching rows. */
  lemma DefaultLimitPage(notifications: seq<Notification>, owner: UserId, status: Option<NotificationStatus>)
    ensures |GetNotifications(notifications, owner, status, DefaultLimit)| <= 50
    ensures |Filter(notifications, ListedRows(owner, status))| <= 50 ==>
      GetNotifications(notifications, owner, status, DefaultLimit) == Listing(notifications, owner, status)
  {
    var listing := Listing(notifications, owner, status);
    assert |listing| == |multiset(listing)| == |Filter(notifications, ListedRows(owner, status))|;
  }

  /** Nothing newer is cut off by the limit: every matching row left out is
      at most as new as every row returned. */
  lemma NewestKept(notifications: seq<Notification>, owner: UserId, status: Option<NotificationStatus>, limit: nat,
                   x: Notification)
    requires x in notifications && ListedRows(owner, status)(x)
    requires x !in GetNotifications(notifications, owner, status, limit)
    ensures forall i :: 0 <= i < |GetNotifications(notifications, owner, status, limit)| ==>
      AtOrBefore(x.createdAt, GetNotifications(notifications, owner, status, limit)[i].createdAt)
  {
    var listing := Listing(notifications, owner, status);
    var rows := Filter(notifications, ListedRows(owner, status));
    assert x in rows;
    assert x in multiset(rows);
    assert x in listing;
    var r := GetNotifications(notifications, owner, status, limit);
    assert r == listing[..Min(limit, |listing|)];
    SortedPrefixFirst(listing, limit, x, NewestFirst(NotificationCreatedAt));
    forall i | 0 <= i < |r| ensures AtOrBefore(x.createdAt, r[i].createdAt) {
      assert r[i] == listing[i];
      assert NewestFirst(NotificationCreatedAt)(listing[i], x);
      assert AtOrBefore(NotificationCreatedAt(x), NotificationCreatedAt(listing[i]));
    }
  }

  /** The `where` of `getUnreadCount` and `markAllAsRead`. */
  function UnreadRows(owner: UserId): Notification -> bool
  {
    (n: Notification) => n.userId == owner && n.status == Unread
  }

  /** `getUnreadCount`. */
  function GetUnreadCount(notifications: seq<Notification>, owner: UserId): (n: nat)
    ensures n <= |notifications|
    ensures n == 0 <==> forall i :: 0 <= i < |notifications| ==> !UnreadRows(owner)(notifications[i])
  {
    var rows := Filter(notifications, UnreadRows(owner));
    assert rows != [] ==> rows[0] in notifications;
    |rows|
  }

  /** A new notification is one more unread one for its owner. */
  lemma CreateAddsUnread(notifications: seq<Notification>, n: Notification, owner: UserId)
    ensures GetUnreadCount(notifications + [n], owner)
         == GetUnreadCount(notifications, owner) + (if n.userId == owner && n.status == Unread then 1 else 0)
  {
    FilterSnoc(notifications, n, UnreadRows(owner));
  }

  // ---------------------------------------------------------------------
  // Reading and deleting

  /** The `where: { id }` of the single-row writes: no owner filter. */
  function NotificationWithId(id: Id): Notification -> bool
  {
    (n: Notification) => n.id == id
  }

  /** A row marked read at `now`. */
  function MarkRead(n: Notification, now: Moment): (r: Notification)
    ensures r.status == Read && r.readAt == Some(now)
    ensures r.id == n.id && r.userId == n.userId && r.kind == n.kind && r.relatedId == n.relatedId
    ensures r.(status := n.status, readAt := n.readAt) == n
  {
    n.(status := Read, readAt := Some(now))
  }

  /** `markAsRead(id)`: fails when no notification has that id. */
  method MarkAsRead(db: Database, id: Id, now: Moment) returns (r: Result<Notification>)
    requires db.Valid()
    modifies db`notifications
    ensures db.Valid()
    ensures match FirstIndex(old(db.notifications), NotificationWithId(id))
      case None => r == Err(NotFound("notification")) && db.notifications == old(db.notifications)
      case Some(i) =>
        r == Ok(MarkRead(old(db.notifications)[i], now)) && db.notifications == old(db.notifications)[i := r.value]
  {
    match FirstIndex(db.notifications, NotificationWithId(id))
    case None =>
      r := Err(NotFound("notification"));
    case Some(i) =>
      var updated := MarkRead(db.notifications[i], now);
      ReplaceKeepsKeys(db.notifications, i, updated, NotificationKey, db.nextId);
      db.notifications := db.notifications[i := updated];
      r := Ok(updated);
  }

  /** One row under `updateMany`: read at `now` when it is an unread row
      of the caller, untouched otherwise. */
  function MarkIfUnread(n: Notification, owner: UserId, now: Moment): (r: Notification)
    ensures r.id == n.id && !UnreadRows(owner)(r)
  {
    if UnreadRows(owner)(n) then MarkRead(n, now) else n
  }

  /** The table after `updateMany`. */
  function MarkAll(notifications: seq<Notification>, owner: UserId, now: Moment): (r: seq<Notification>)
    ensures |r| == |notifications|
    ensures forall i :: 0 <= i < |r| ==> r[i].id == notifications[i].id && !UnreadRows(owner)(r[i])
  {
    seq(|notifications|, i requires 0 <= i < |notifications| => MarkIfUnread(notifications[i], owner, now))
  }

  /** `markAllAsRead`: returns the number of rows it changed. */
  method MarkAllAsRead(db: Database, owner: UserId, now: Moment) returns (count: nat)
    requires db.Valid()
    modifies db`notifications
    ensures db.Valid()
    ensures count == GetUnreadCount(old(db.notifications), owner)
    ensures db.notifications == MarkAll(old(db.notifications), owner, now)
  {
    count := GetUnreadCount(db.notifications, owner);
    db.notifications := MarkAll(db.notifications, owner, now);
  }

  /** Afterwards the caller has no unread notification. */
  lemma MarkAllClearsUnread(notifications: seq<Notification>, owner: UserId, now: Moment)
    ensures GetUnreadCount(MarkAll(notifications, owner, now), owner) == 0
  {
    FilterNone(MarkAll(notifications, owner, now), UnreadRows(owner));
  }

  /** Rows of other owners and rows already read are untouched; the
      caller's unread rows become read with `readAt` = now, their other
      fields unchanged. */
  lemma MarkAllTouchesOnlyUnread(notifications: seq<Notification>, owner: UserId, now: Moment)
    ensures var r := MarkAll(notifications, owner, now);
      forall i :: 0 <= i < |r| ==>
        if notifications[i].userId == owner && notifications[i].status == Unread
        then r[i] == MarkRead(notifications[i], now)
        else r[i] == notifications[i]
  {
    var r := MarkAll(notifications, owner, now);
    forall i | 0 <= i < |r| ensures r[i] == MarkIfUnread(notifications[i], owner, now) {
    }
  }

  /** `deleteNotification(id)`: fails when no notification has that id. */
  method DeleteNotification(db: Database, id: Id) returns (r: Result<()>)
    requires db.Valid()
    modifies db`notifications
    ensures db.Valid()
    ensures match FirstIndex(old(db.notifications), NotificationWithId(id))
      case None => r == Err(NotFound("notification")) && db.notifications == old(db.notifications)
      case Some(i) => r == Ok(()) && db.notifications == RemoveAt(old(db.notifications), i)
  {
    match FirstIndex(db.notifications, NotificationWithId(id))
    case None =>
      r := Err(NotFound("notification"));
    case Some(i) =>
      RemoveKeepsKeys(db.notifications, i, NotificationKey, db.nextId);
      db.notifications := RemoveAt(db.notifications, i);
      r := Ok(());
  }

  // ---------------------------------------------------------------------
  // The check-then-insert loop shared by the generators

  /** A notification the generator may create, for one row. */
  datatype Candidate = Candidate(relatedId: Id, title: string, message: string)

  /** What a generator checks and writes: the owner, the type and, for the
      renewal generator, how recent a blocking notification must be. */
  datatype Rule = Rule(owner: UserId, kind: NotificationType, since: Option<Moment>, now: Moment)

  /** The `findFirst` of the loop body: an unread notification of the
      caller, of this type, for this row (and recent enough). */
  predicate Blocks(n: Notification, relatedId: Id, rule: Rule)
  {
    && n.userId == rule.owner
    && n.kind == rule.kind
    && n.relatedId == Some(relatedId)
    && n.status == Unread
    && (rule.since.Some? ==> AtOrBefore(rule.since.value, n.createdAt))
  }

  function Blocking(relatedId: Id, rule: Rule): Notification -> bool
  {
    (n: Notification) => Blocks(n, relatedId, rule)
  }

  predicate Blocked(notifications: seq<Notification>, relatedId: Id, rule: Rule)
  {
    exists j :: 0 <= j < |notifications| && Blocks(notifications[j], relatedId, rule)
  }

  function NewNotification(id: Id, c: Candidate, rule: Rule): Notification
  {
    Notification(id, rule.owner, c.title, c.message, rule.kind, Some(c.relatedId), Unread, None, rule.now)
  }

  /** One iteration: the table and the id counter after considering `c`. */
  function Step(s: (seq<Notification>, nat), c: Candidate, rule: Rule): (seq<Notification>, nat)
  {
    if Blocked(s.0, c.relatedId, rule) then s
    else (s.0 + [NewNotification(s.1, c, rule)], s.1 + 1)
  }

  /** The table and the id counter after the loop over `cands`. */
  function GenerateAll(notifications: seq<Notification>, nextId: nat, cands: seq<Candidate>, rule: Rule)
    : (seq<Notification>, nat)
  {
    if cands == [] then (notifications, nextId)
    else Step(GenerateAll(notifications, nextId, cands[..|cands| - 1], rule), cands[|cands| - 1], rule)
  }

  lemma GeneratePrefix(notifications: seq<Notification>, nextId: nat, cands: seq<Candidate>, rule: Rule, i: nat)
    requires i < |cands|
    ensures GenerateAll(notifications, nextId, cands[..i + 1], rule)
         == Step(GenerateAll(notifications, nextId, cands[..i], rule), cands[i], rule)
  {
    assert cands[..i + 1][..i] == cands[..i];
  }

  /** The loop of a generator: for each candidate, create its notification
      unless a blocking one exists. */
  method Generate(db: Database, cands: seq<Candidate>, rule: Rule)
    requires db.Valid()
    modifies db`notifications, db`nextId
    ensures db.Valid()
    ensures (db.notifications, db.nextId) == GenerateAll(old(db.notifications), old(db.nextId), cands, rule)
  {
    ghost var start, startId := db.notifications, db.nextId;
    var i := 0;
    assert cands[..0] == [];
    while i < |cands|
      invariant 0 <= i <= |cands|
      invariant db.Valid()
      invariant (db.notifications, db.nextId) == GenerateAll(start, startId, cands[..i], rule)
    {
      GeneratePrefix(start, startId, cands, rule, i);
      Consider(db, cands[i], rule);
      i := i + 1;
    }
    assert cands[..i] == cands;
  }

  /** One iteration: look for a blocking notification, and create one for
      `c` when there is none. */
  method Consider(db: Database, c: Candidate, rule: Rule)
    requires db.Valid()
    modifies db`notifications, db`nextId
    ensures db.Valid()
    ensures (db.notifications, db.nextId) == Step((old(db.notifications), old(db.nextId)), c, rule)
  {
    var existing := FirstIndex(db.notifications, Blocking(c.relatedId, rule));
    if existing.None? {
      var id := db.FreshId();
      var n := NewNotification(id, c, rule);
      AppendFresh(db.notifications, n, NotificationKey, id);
      db.notifications := db.notifications + [n];
    } else {
      assert Blocks(db.notifications[existing.value], c.relatedId, rule);
    }
  }

  // Properties of the loop

  /** A rule whose window contains its own creation time: the rows it
      creates block themselves. */
  predicate SinceOk(rule: Rule)
  {
    rule.since.Some? ==> AtOrBefore(rule.since.value, rule.now)
  }

  predicate Covered(notifications: seq<Notification>, cands: seq<Candidate>, rule: Rule)
  {
    forall i :: 0 <= i < |cands| ==> Blocked(notifications, cands[i].relatedId, rule)
  }

  lemma BlockedGrows(notifications: seq<Notification>, more: seq<Notification>, relatedId: Id, rule: Rule)
    requires Blocked(notifications, relatedId, rule)
    ensures Blocked(notifications + more, relatedId, rule)
  {
    var j :| 0 <= j < |notifications| && Blocks(notifications[j], relatedId, rule);
    assert (notifications + more)[j] == notifications[j];
  }

  /** One step only appends, and what it appends is an unread notification
      of the rule's owner and type for the candidate's row. */
  lemma StepAppends(s: (seq<Notification>, nat), c: Candidate, rule: Rule)
    ensures var r := Step(s, c, rule);
      && (r == s || r == (s.0 + [NewNotification(s.1, c, rule)], s.1 + 1))
      && (SinceOk(rule) ==> Blocked(r.0, c.relatedId, rule))
  {
    var r := Step(s, c, rule);
    if !Blocked(s.0, c.relatedId, rule) && SinceOk(rule) {
      assert Blocks(r.0[|s.0|], c.relatedId, rule);
    }
  }

  /** After a run every candidate has a blocking notification. */
  lemma {:induction false} GenerateCovers(notifications: seq<Notification>, nextId: nat, cands: seq<Candidate>, rule: Rule)
    requires SinceOk(rule)
    ensures Covered(GenerateAll(notifications, nextId, cands, rule).0, cands, rule)
  {
    if cands != [] {
      var init, c := cands[..|cands| - 1], cands[|cands| - 1];
      GenerateCovers(notifications, nextId, init, rule);
      var s := GenerateAll(notifications, nextId, init, rule);
      StepAppends(s, c, rule);
      var r := Step(s, c, rule);
      forall i | 0 <= i < |cands| ensures Blocked(r.0, cands[i].relatedId, rule) {
        if i < |init| {
          assert cands[i] == init[i];
          if r != s {
            BlockedGrows(s.0, [NewNotification(s.1, c, rule)], cands[i].relatedId, rule);
          }
        }
      }
    }
  }

  /** A run over candidates that are all covered changes nothing. */
  lemma {:induction false} CoveredIsNoop(notifications: seq<Notification>, nextId: nat, cands: seq<Candidate>, rule: Rule)
    requires Covered(notifications, cands, rule)
    ensures GenerateAll(notifications, nextId, cands, rule) == (notifications, nextId)
  {
    if cands != [] {
      var init := cands[..|cands| - 1];
      assert Covered(notifications, init, rule) by {
        forall i | 0 <= i < |init| ensures Blocked(notifications, init[i].relatedId, rule) {
          assert init[i] == cands[i];
        }
      }
      CoveredIsNoop(notifications, nextId, init, rule);
      assert Blocked(notifications, cands[|cands| - 1].relatedId, rule);
    }
  }

  /** De-duplication: a second run with no reads in between adds nothing. */
  lemma SecondRunAddsNothing(notifications: seq<Notification>, nextId: nat, cands: seq<Candidate>, rule: Rule)
    requires SinceOk(rule)
    ensures var first := GenerateAll(notifications, nextId, cands, rule);
      GenerateAll(first.0, first.1, cands, rule) == first
  {
    var first := GenerateAll(notifications, nextId, cands, rule);
    GenerateCovers(notifications, nextId, cands, rule);
    CoveredIsNoop(first.0, first.1, cands, rule);
  }

  /** Every notification a run adds is an unread one of the rule's owner and
      type, created now, for one of the candidates' rows; the rows that were
      there stay as they were. */
  predicate AddedBy(n: Notification, cands: seq<Candidate>, rule: Rule)
  {
    && n.userId == rule.owner && n.kind == rule.kind && n.status == Unread && n.readAt.None?
    && n.createdAt == rule.now
    && exists k :: 0 <= k < |cands| && n.relatedId == Some(cands[k].relatedId)
  }

  lemma {:induction false} GenerateAppends(notifications: seq<Notification>, nextId: nat, cands: seq<Candidate>, rule: Rule)
    ensures var r := GenerateAll(notifications, nextId, cands, rule);
      && |notifications| <= |r.0|
      && r.0[..|notifications|] == notifications
      && r.1 == nextId + (|r.0| - |notifications|)
      && forall i :: |notifications| <= i < |r.0| ==> AddedBy(r.0[i], cands, rule)
  {
    if cands != [] {
      var init, c := cands[..|cands| - 1], cands[|cands| - 1];
      GenerateAppends(notifications, nextId, init, rule);
      var s := GenerateAll(notifications, nextId, init, rule);
      StepAppends(s, c, rule);
      var r := Step(s, c, rule);
      forall i | |notifications| <= i < |r.0| ensures AddedBy(r.0[i], cands, rule) {
        if i < |s.0| {
          assert r.0[i] == s.0[i];
          assert AddedBy(s.0[i], init, rule);
          var k :| 0 <= k < |init| && s.0[i].relatedId == Some(init[k].relatedId);
          assert init[k] == cands[k];
        } else {
          assert r.0[i] == NewNotification(s.1, c, rule);
          assert cands[|cands| - 1] == c;
        }
      }
      assert r.0[..|notifications|] == s.0[..|notifications|];
    }
  }

  // ---------------------------------------------------------------------
  // Due-date notifications

  /** `tomorrow.toDateString()` read back: local midnight of tomorrow. */
  function TomorrowStart(now: Moment): Moment { Moment(NextDay(now.date), 0) }

  /** `toDateString() + ' 23:59:59'`: tomorrow at 23:59:59.000. */
  function TomorrowEnd(now: Moment): Moment { Moment(NextDay(now.date), 86399000) }

  /** The query: the caller's pending transactions due in the window. */
  predicate DueTomorrow(owner: UserId, now: Moment, t: Transaction)
  {
    && t.userId == owner
    && t.status == Pending
    && t.dueDate.Some?
    && InRange(t.dueDate.value, TomorrowStart(now), TomorrowEnd(now))
  }

  function DueTomorrowRows(owner: UserId, now: Moment): Transaction -> bool
  {
    (t: Transaction) => DueTomorrow(owner, now, t)
  }

  /** The window is tomorrow's calendar day up to 23:59:59, that second
      excluded. */
  lemma DueWindowMeaning(owner: UserId, now: Moment, t: Transaction)
    ensures DueTomorrow(owner, now, t) <==>
      && t.userId == owner && t.status == Pending && t.dueDate.Some?
      && t.dueDate.value.date == NextDay(now.date) && t.dueDate.value.ms < 86399000
  {
  }

  /** `transaction.categoryName || 'Sem categoria'`. */
  function CategoryLabel(t: Transaction): string
  {
    if t.categoryName.Some? && t.categoryName.value != "" then t.categoryName.value else "Sem categoria"
  }

  function DueDateCandidate(t: Transaction): Candidate
  {
    Candidate(t.id, "Conta vence amanhã", t.description + " (" + CategoryLabel(t) + ") vence amanhã")
  }

  function DueDateCandidates(transactions: seq<Transaction>, owner: UserId, now: Moment): (r: seq<Candidate>)
    ensures var rows := Filter(transactions, DueTomorrowRows(owner, now));
      |r| == |rows| && forall i :: 0 <= i < |r| ==> r[i].relatedId == rows[i].id
  {
    var rows := Filter(transactions, DueTomorrowRows(owner, now));
    seq(|rows|, i requires 0 <= i < |rows| => DueDateCandidate(rows[i]))
  }

  /** `generateDueDateNotifications`. */
  method GenerateDueDateNotifications(db: Database, owner: UserId, now: Moment)
    requires db.Valid()
    modifies db`notifications, db`nextId
    ensures db.Valid()
    ensures (db.notifications, db.nextId)
         == GenerateAll(old(db.notifications), old(db.nextId), DueDateCandidates(db.transactions, owner, now),
                        Rule(owner, DueDate, None, now))
  {
    var cands := DueDateCandidates(db.transactions, owner, now);
    Generate(db, cands, Rule(owner, DueDate, None, now));
  }

  /** After the run, every transaction due tomorrow has an unread due-date
      notification pointing at it. */
  lemma DueDateCovered(notifications: seq<Notification>, nextId: nat, transactions: seq<Transaction>,
                       owner: UserId, now: Moment, t: Transaction)
    requires t in transactions && DueTomorrow(owner, now, t)
    ensures Blocked(GenerateAll(notifications, nextId, DueDateCandidates(transactions, owner, now),
                                Rule(owner, DueDate, None, now)).0, t.id, Rule(owner, DueDate, None, now))
  {
    var rows := Filter(transactions, DueTomorrowRows(owner, now));
    var cands := DueDateCandidates(transactions, owner, now);
    GenerateCovers(notifications, nextId, cands, Rule(owner, DueDate, None, now));
    assert t in rows;
    var k :| 0 <= k < |rows| && rows[k] == t;
    assert cands[k].relatedId == t.id;
  }

  // ---------------------------------------------------------------------
  // Budget-limit notifications

  /** `percentage >= 80`. */
  function NearLimitRows(): Budgets.BudgetProgress -> bool
  {
    (p: Budgets.BudgetProgress) => p.percentage >= 80.0
  }

  /** The current month's budgets of the caller at or above 80% of their
      amount; the message text is a parameter (its number formatting is not
      modelled). */
  function BudgetCandidates(budgets: seq<Budget>, categories: seq<Category>, transactions: seq<Transaction>,
                            owner: UserId, now: Moment, message: Budgets.BudgetProgress -> string)
    : (r: seq<Candidate>)
    requires Budgets.AllHaveCategory(budgets, categories)
    ensures var rows := Filter(Budgets.GetBudgetProgress(budgets, categories, transactions, owner, now.date.month, now.date.year),
                               NearLimitRows());
      |r| == |rows| && forall i :: 0 <= i < |r| ==> r[i].relatedId == rows[i].budget.id
  {
    var rows := Filter(Budgets.GetBudgetProgress(budgets, categories, transactions, owner, now.date.month, now.date.year),
                       NearLimitRows());
    seq(|rows|, i requires 0 <= i < |rows| => Candidate(rows[i].budget.id, "Orçamento próximo do limite", message(rows[i])))
  }

  /** `generateBudgetLimitNotifications`. */
  method GenerateBudgetLimitNotifications(db: Database, owner: UserId, now: Moment,
                                          message: Budgets.BudgetProgress -> string)
    requires db.Valid()
    modifies db`notifications, db`nextId
    ensures db.Valid()
    ensures (db.notifications, db.nextId)
         == GenerateAll(old(db.notifications), old(db.nextId),
                        BudgetCandidates(db.budgets, db.categories, db.transactions, owner, now, message),
                        Rule(owner, BudgetLimit, None, now))
  {
    var cands := BudgetCandidates(db.budgets, db.categories, db.transactions, owner, now, message);
    Generate(db, cands, Rule(owner, BudgetLimit, None, now));
  }

  /** A progress entry is near its limit exactly when five times its
      spending is at least four times its positive amount; a zero budget
      never is. */
  lemma NearLimitMeaning(p: Budgets.BudgetProgress)
    requires p.percentage == Budgets.Percentage(p.spent, p.budget.amount)
    ensures NearLimitRows()(p) <==> p.budget.amount > 0 && 5 * p.spent >= 4 * p.budget.amount
  {
    if p.budget.amount > 0 {
      Budgets.PercentageThreshold(p.spent, p.budget.amount);
    }
  }

  /** After the run, every budget of the caller for the current month whose
      spending reached four fifths of its amount has an unread budget-limit
      notification pointing at it. */
  lemma BudgetLimitCovered(notifications: seq<Notification>, nextId: nat, budgets: seq<Budget>, categories: seq<Category>,
                           transactions: seq<Transaction>, owner: UserId, now: Moment,
                           message: Budgets.BudgetProgress -> string, b: Budget)
    requires Budgets.AllHaveCategory(budgets, categories)
    requires b in budgets && b.userId == owner && b.month == now.date.month && b.year == now.date.year
    requires HasCategory(categories, b.categoryId)
    requires var spent := Budgets.Spent(transactions, owner, CategoryName(categories, b.categoryId), b.month, b.year);
      b.amount > 0 && 5 * spent >= 4 * b.amount
    ensures Blocked(GenerateAll(notifications, nextId, BudgetCandidates(budgets, categories, transactions, owner, now, message),
                                Rule(owner, BudgetLimit, None, now)).0, b.id, Rule(owner, BudgetLimit, None, now))
  {
    var selected := Filter(budgets, Budgets.PeriodBudgets(owner, now.date.month, now.date.year));
    var progress := Budgets.GetBudgetProgress(budgets, categories, transactions, owner, now.date.month, now.date.year);
    var rows := Filter(progress, NearLimitRows());
    var cands := BudgetCandidates(budgets, categories, transactions, owner, now, message);
    assert b in selected;
    var j :| 0 <= j < |selected| && selected[j] == b;
    NearLimitMeaning(progress[j]);
    assert progress[j] in rows;
    var k :| 0 <= k < |rows| && rows[k] == progress[j];
    assert cands[k].relatedId == b.id;
    GenerateCovers(notifications, nextId, cands, Rule(owner, BudgetLimit, None, now));
  }

  // ---------------------------------------------------------------------
  // Subscription-renewal notifications

  /** `Date.now() - 24 * 60 * 60 * 1000`: the same time yesterday. */
  function DayBefore(now: Moment): Moment { Moment(PrevDay(now.date), now.ms) }

  lemma DayBeforeIsEarlier(now: Moment)
    ensures Before(DayBefore(now), now)
  {
    PrevDayRecedes(now.date);
    DayNumberOrder(PrevDay(now.date), now.date);
  }

  function RenewalCandidate(s: Subscription): Candidate
  {
    Candidate(s.id, "Renovação de assinatura", "Assinatura " + s.description + " será renovada em breve")
  }

  /** The caller's active subscriptions, in table order. */
  function RenewalCandidates(subscriptions: seq<Subscription>, owner: UserId): (r: seq<Candidate>)
    ensures var rows := Filter(subscriptions, (s: Subscription) => s.userId == owner && s.isActive);
      |r| == |rows| && forall i :: 0 <= i < |r| ==> r[i].relatedId == rows[i].id
  {
    var rows := Filter(subscriptions, (s: Subscription) => s.userId == owner && s.isActive);
    seq(|rows|, i requires 0 <= i < |rows| => RenewalCandidate(rows[i]))
  }

  function RenewalRule(owner: UserId, now: Moment): Rule
  {
    Rule(owner, SubscriptionRenewal, Some(DayBefore(now)), now)
  }

  /** `generateSubscriptionRenewalNotifications`: only an unread renewal
      notification of the last 24 hours blocks a new one. */
  method GenerateSubscriptionRenewalNotifications(db: Database, owner: UserId, now: Moment)
    requires db.Valid()
    modifies db`notifications, db`nextId
    ensures db.Valid()
    ensures (db.notifications, db.nextId)
         == GenerateAll(old(db.notifications), old(db.nextId), RenewalCandidates(db.subscriptions, owner), RenewalRule(owner, now))
  {
    var cands := RenewalCandidates(db.subscriptions, owner);
    Generate(db, cands, RenewalRule(owner, now));
  }

  /** The renewal rule's window contains its own run, so a second run in
      the same instant adds nothing. */
  lemma RenewalSecondRun(notifications: seq<Notification>, nextId: nat, subscriptions: seq<Subscription>,
                         owner: UserId, now: Moment)
    ensures var cands := RenewalCandidates(subscriptions, owner);
      var first := GenerateAll(notifications, nextId, cands, RenewalRule(owner, now));
      GenerateAll(first.0, first.1, cands, RenewalRule(owner, now)) == first
  {
    DayBeforeIsEarlier(now);
    SecondRunAddsNothing(notifications, nextId, RenewalCandidates(subscriptions, owner), RenewalRule(owner, now));
  }

  /** An unread renewal notification older than 24 hours does not block:
      the subscription is notified again. */
  lemma StaleRenewalDoesNotBlock(n: Notification, s: Subscription, owner: UserId, now: Moment)
    requires Before(n.createdAt, DayBefore(now))
    ensures !Blocks(n, s.id, RenewalRule(owner, now))
  {
  }
}
