/** The Prisma tables the repositories read and write, held in memory.

    Rows are immutable records; the `Database` class owns one sequence per
    table and a counter standing for the database-generated identifiers.
    Amounts are integers (cents); timestamps are local `Moment`s. */
module Store {

  import opened Common
  import opened Calendar
  import opened Seqs

  /** A row identifier (a UUID in the source; only equality is used). */
  type Id = nat

  /** The owner column; every repository passes one fixed user id. */
  type UserId = string

  /** A money amount in cents. */
  type Cents = int

  datatype CardFlag = Visa | Mastercard | AmericanExpress | Elo | Hipercard | OtherFlag

  datatype CardStatus = Active | Blocked | Expired | Cancelled

  datatype CreditCard = CreditCard(
    id: Id,
    userId: UserId,
    name: string,
    flag: CardFlag,
    lastFourDigits: string,
    limit: Cents,
    availableLimit: Cents,
    closingDay: int,
    dueDay: int,
    status: CardStatus,
    createdAt: Moment)

  /** The `type` column: the repositories test for "income" and "expense";
      any other stored label counts as neither. */
  datatype TransactionType = Income | Expense | OtherType(tag: string)

  datatype TransactionStatus = Paid | Pending

  datatype Transaction = Transaction(
    id: Id,
    userId: UserId,
    amount: Cents,
    description: string,
    category: Option<string>,
    categoryName: Option<string>,
    categoryId: Option<Id>,
    kind: TransactionType,
    status: TransactionStatus,
    dueDate: Option<Moment>,
    paymentDate: Option<Moment>,
    creditCardId: Option<Id>,
    createdAt: Moment)

  datatype Frequency = Weekly | Monthly | Yearly

  datatype Subscription = Subscription(
    id: Id,
    userId: UserId,
    description: string,
    amount: Cents,
    categoryId: Id,
    frequency: Frequency,
    dayOfMonth: Option<int>,
    dayOfWeek: Option<int>,
    month: Option<int>,
    creditCardId: Option<Id>,
    isActive: bool,
    createdAt: Moment)

  datatype Budget = Budget(
    id: Id,
    userId: UserId,
    categoryId: Id,
    amount: Cents,
    month: int,
    year: int,
    createdAt: Moment)

  datatype NotificationType = DueDate | BudgetLimit | PaymentReminder | SubscriptionRenewal | General

  datatype NotificationStatus = Unread | Read

  datatype Notification = Notification(
    id: Id,
    userId: UserId,
    title: string,
    message: string,
    kind: NotificationType,
    relatedId: Option<Id>,
    status: NotificationStatus,
    readAt: Option<Moment>,
    createdAt: Moment)

  datatype Category = Category(id: Id, userId: UserId, name: string, icon: string)

  // Row keys, passed to the generic sequence operations.

  function CardKey(c: CreditCard): Id { c.id }
  function TransactionKey(t: Transaction): Id { t.id }
  function SubscriptionKey(s: Subscription): Id { s.id }
  function BudgetKey(b: Budget): Id { b.id }
  function NotificationKey(n: Notification): Id { n.id }
  function CategoryKey(c: Category): Id { c.id }

  /** The unique constraint `userId_name` of the category table. */
  function CategoryOwnerName(c: Category): (UserId, string) { (c.userId, c.name) }

  /** The unique constraint on (owner, category, month, year) of budgets. */
  function BudgetPeriodKey(b: Budget): (UserId, Id, int, int) { (b.userId, b.categoryId, b.month, b.year) }

  /** A table whose primary keys are distinct and were all handed out
      before `bound`. */
  predicate TableOk<T>(s: seq<T>, key: T -> Id, bound: nat)
  {
    DistinctBy(s, key) && forall i :: 0 <= i < |s| ==> key(s[i]) < bound
  }

  /** Appending a row that carries the next identifier keeps the table
      well-keyed for the advanced counter. */
  lemma AppendFresh<T>(s: seq<T>, x: T, key: T -> Id, bound: nat)
    requires TableOk(s, key, bound) && key(x) == bound
    ensures TableOk(s + [x], key, bound + 1)
  {
    var r := s + [x];
    forall i, j | 0 <= i < j < |r| ensures key(r[i]) != key(r[j]) {
      if j == |s| {
        assert r[i] == s[i];
      } else {
        assert r[i] == s[i] && r[j] == s[j];
      }
    }
  }

  /** Replacing a row by one with the same key keeps the table well-keyed. */
  lemma ReplaceKeepsKeys<T>(s: seq<T>, i: nat, x: T, key: T -> Id, bound: nat)
    requires TableOk(s, key, bound) && i < |s| && key(x) == key(s[i])
    ensures TableOk(s[i := x], key, bound)
  {
  }

  /** Removing a row keeps the table well-keyed. */
  lemma RemoveKeepsKeys<T>(s: seq<T>, i: nat, key: T -> Id, bound: nat)
    requires TableOk(s, key, bound) && i < |s|
    ensures TableOk(RemoveAt(s, i), key, bound)
  {
    var r := RemoveAt(s, i);
    forall a, b | 0 <= a < b < |r| ensures key(r[a]) != key(r[b]) {
      var a' := if a < i then a else a + 1;
      var b' := if b < i then b else b + 1;
      assert r[a] == s[a'] && r[b] == s[b'];
    }
    forall a | 0 <= a < |r| ensures key(r[a]) < bound {
      assert r[a] == s[if a < i then a else a + 1];
    }
  }

  /** Prisma's `delete`: the row at `i` disappears, the others keep their
      order. */
  function RemoveAt<T>(s: seq<T>, i: nat): (r: seq<T>)
    requires i < |s|
    ensures |r| == |s| - 1
    ensures forall j :: 0 <= j < i ==> r[j] == s[j]
    ensures forall j :: i <= j < |r| ==> r[j] == s[j + 1]
  {
    s[..i] + s[i + 1..]
  }

  predicate HasCategory(categories: seq<Category>, id: Id)
  {
    exists j :: 0 <= j < |categories| && categories[j].id == id
  }

  /** The name of the category row a budget or a subscription references
      (`budget.category.name`, `sub.category.name`). */
  function CategoryName(categories: seq<Category>, id: Id): (name: string)
    requires HasCategory(categories, id)
    ensures exists j :: 0 <= j < |categories| && categories[j].id == id && categories[j].name == name
  {
    var k := FirstIndex(categories, (c: Category) => c.id == id);
    if k.Some? then categories[k.value].name else assert false; ""
  }

  /** Adding a category keeps every reference that resolved. */
  lemma HasCategoryGrows(categories: seq<Category>, c: Category, id: Id)
    requires HasCategory(categories, id)
    ensures HasCategory(categories + [c], id)
  {
    var j :| 0 <= j < |categories| && categories[j].id == id;
    assert (categories + [c])[j] == categories[j];
  }

  /** Newest first: Prisma's `orderBy: { createdAt: 'desc' }`. */
  function NewestFirst<T>(createdAt: T -> Moment): (T, T) -> bool
  {
    (a: T, b: T) => AtOrBefore(createdAt(b), createdAt(a))
  }

  /** Ordering by creation time is total and transitive, so the sorted
      listings are sorted. */
  lemma NewestFirstIsTotal<T(!new)>(createdAt: T -> Moment)
    ensures TotalPreorder(NewestFirst(createdAt))
  {
    var le := NewestFirst(createdAt);
    forall a: T, b: T ensures le(a, b) || le(b, a) {
      AtOrBeforeTotal(createdAt(a), createdAt(b));
    }
    forall a: T, b: T, c: T | le(a, b) && le(b, c) ensures le(a, c) {
      AtOrBeforeTransitive(createdAt(c), createdAt(b), createdAt(a));
    }
  }

  /** The `amount` column, summed by the `_sum` aggregates. */
  function TransactionAmount(t: Transaction): Cents { t.amount }

  function CardCreatedAt(c: CreditCard): Moment { c.createdAt }
  function SubscriptionCreatedAt(s: Subscription): Moment { s.createdAt }
  function BudgetCreatedAt(b: Budget): Moment { b.createdAt }
  function NotificationCreatedAt(n: Notification): Moment { n.createdAt }

  /** The database: one sequence per table plus the identifier counter. */
  class Database {
    var creditCards: seq<CreditCard>
    var transactions: seq<Transaction>
    var subscriptions: seq<Subscription>
    var budgets: seq<Budget>
    var notifications: seq<Notification>
    var categories: seq<Category>
    var nextId: nat

    /** Primary keys are distinct and fresh, the unique constraints hold and
        every budget and subscription names an existing category. */
    ghost predicate Valid()
      reads this
    {
      && TableOk(creditCards, CardKey, nextId)
      && TableOk(transactions, TransactionKey, nextId)
      && TableOk(subscriptions, SubscriptionKey, nextId)
      && TableOk(budgets, BudgetKey, nextId)
      && TableOk(notifications, NotificationKey, nextId)
      && TableOk(categories, CategoryKey, nextId)
      && DistinctBy(categories, CategoryOwnerName)
      && DistinctBy(budgets, BudgetPeriodKey)
      && (forall i :: 0 <= i < |budgets| ==> HasCategory(categories, budgets[i].categoryId))
      && (forall i :: 0 <= i < |subscriptions| ==> HasCategory(categories, subscriptions[i].categoryId))
    }

    constructor ()
      ensures Valid()
      ensures creditCards == [] && transactions == [] && subscriptions == []
      ensures budgets == [] && notifications == [] && categories == []
      ensures nextId == 0
    {
      creditCards, transactions, subscriptions := [], [], [];
      budgets, notifications, categories := [], [], [];
      nextId := 0;
    }

    /** The identifier the database assigns to the next inserted row. */
    method FreshId() returns (id: Id)
      modifies this`nextId
      ensures id == old(nextId) && nextId == id + 1
    {
      id := nextId;
      nextId := nextId + 1;
    }
  }

  /** Advancing the counter keeps every table well-keyed. */
  lemma TableOkMonotone<T>(s: seq<T>, key: T -> Id, bound: nat, bound': nat)
    requires TableOk(s, key, bound) && bound <= bound'
    ensures TableOk(s, key, bound')
  {
  }
}
