/** Storing a transaction extracted from a receipt: the category name is
    normalised and the category is connected, or created when the caller
    has none of that name. */
module Transactions {

  import opened Common
  import opened Calendar
  import opened Seqs
  import opened Store

  // ---------------------------------------------------------------------
  // Name normalisation (ASCII letters only)

  predicate IsLower(c: char) { 'a' <= c <= 'z' }
  predicate IsUpper(c: char) { 'A' <= c <= 'Z' }

  function ToUpper(c: char): (r: char)
    ensures !IsLower(r)
    ensures IsLower(c) ==> IsUpper(r)
    ensures !IsLower(c) ==> r == c
  {
    if IsLower(c) then (c as int - 32) as char else c
  }

  function ToLower(c: char): (r: char)
    ensures !IsUpper(r)
    ensures IsUpper(c) ==> IsLower(r)
    ensures !IsUpper(c) ==> r == c
  {
    if IsUpper(c) then (c as int + 32) as char else c
  }

  /** `toLowerCase()`. */
  function LowerAll(s: string): (r: string)
    ensures |r| == |s|
    ensures forall i :: 0 <= i < |s| ==> r[i] == ToLower(s[i])
  {
    seq(|s|, i requires 0 <= i < |s| => ToLower(s[i]))
  }

  /** `charAt(0).toUpperCase() + slice(1).toLowerCase()`. */
  function Normalize(s: string): (r: string)
    ensures |r| == |s|
    ensures s != [] ==> !IsLower(r[0]) && forall i :: 1 <= i < |r| ==> !IsUpper(r[i])
  {
    if s == [] then [] else [ToUpper(s[0])] + LowerAll(s[1..])
  }

  /** A normalised name normalises to itself. */
  lemma NormalizeIdempotent(s: string)
    ensures Normalize(Normalize(s)) == Normalize(s)
  {
    var n := Normalize(s);
    if s != [] {
      assert n[1..] == LowerAll(s[1..]);
      assert LowerAll(n[1..]) == n[1..];
    }
  }

  lemma UpperLowerAgree(a: char, b: char)
    ensures ToUpper(a) == ToUpper(b) <==> ToLower(a) == ToLower(b)
  {
  }

  lemma ConsEquality(a: char, x: string, b: char, y: string)
    ensures [a] + x == [b] + y <==> a == b && x == y
  {
    if [a] + x == [b] + y {
      assert ([a] + x)[0] == a && ([b] + y)[0] == b;
      assert ([a] + x)[1..] == x && ([b] + y)[1..] == y;
    }
  }

  lemma LowerAllCons(s: string)
    requires s != []
    ensures LowerAll(s) == [ToLower(s[0])] + LowerAll(s[1..])
  {
  }

  /** Two names normalise to the same category exactly when they differ
      only in the case of their ASCII letters. */
  lemma NormalizeIgnoresCase(s: string, t: string)
    ensures Normalize(s) == Normalize(t) <==> LowerAll(s) == LowerAll(t)
  {
    if s != [] && t != [] {
      UpperLowerAgree(s[0], t[0]);
      LowerAllCons(s);
      LowerAllCons(t);
      ConsEquality(ToUpper(s[0]), LowerAll(s[1..]), ToUpper(t[0]), LowerAll(t[1..]));
      ConsEquality(ToLower(s[0]), LowerAll(s[1..]), ToLower(t[0]), LowerAll(t[1..]));
    } else if s != [] || t != [] {
      assert |Normalize(s)| != |Normalize(t)| && |LowerAll(s)| != |LowerAll(t)|;
    }
  }

  lemma NormalizeExamples()
    ensures Normalize("") == ""
    ensures Normalize("LAZER") == "Lazer"
    ensures Normalize("mercado") == "Mercado"
  {
    LowerAllAzer();
    assert "mercado"[1..] == "ercado";
    LowerAllKeepsLower("ercado");
  }

  lemma LowerAllAzer()
    ensures LowerAll("AZER") == "azer"
  {
    var lazer := LowerAll("AZER");
    assert lazer[0] == 'a' && lazer[1] == 'z' && lazer[2] == 'e' && lazer[3] == 'r';
  }

  /** A name without capitals is its own lower case. */
  lemma LowerAllKeepsLower(s: string)
    requires forall i :: 0 <= i < |s| ==> !IsUpper(s[i])
    ensures LowerAll(s) == s
  {
  }

  // ---------------------------------------------------------------------
  // createTransaction

  /** The extracted receipt (its validated fields). */
  datatype ReceiptData = ReceiptData(
    amount: Cents,
    description: string,
    category: string,
    kind: TransactionType,
    status: TransactionStatus,
    dueDate: Option<Moment>,
    paymentDate: Option<Moment>)

  function CategoryNamed(owner: UserId, name: string): Category -> bool
  {
    (c: Category) => c.userId == owner && c.name == name
  }

  /** `create`: the receipt's fields, with both category columns set to the
      normalised name, the fixed owner and the linked category. */
  function ReceiptTransaction(id: Id, owner: UserId, data: ReceiptData, categoryId: Id, now: Moment): (t: Transaction)
    ensures t.category == t.categoryName == Some(Normalize(data.category))
    ensures t.userId == owner && t.categoryId == Some(categoryId)
  {
    var name := Normalize(data.category);
    Transaction(id, owner, data.amount, data.description, Some(name), Some(name), Some(categoryId),
                data.kind, data.status, data.dueDate, data.paymentDate, None, now)
  }

  /** `createTransaction`: connect-or-create the category by (owner,
      normalised name), then insert the transaction. */
  method CreateTransaction(db: Database, owner: UserId, data: ReceiptData, now: Moment) returns (t: Transaction)
    requires db.Valid()
    modifies db`categories, db`transactions, db`nextId
    ensures db.Valid()
    ensures var name := Normalize(data.category);
      match FirstIndex(old(db.categories), CategoryNamed(owner, name))
      case Some(k) =>
        && db.categories == old(db.categories)
        && t == ReceiptTransaction(old(db.nextId), owner, data, old(db.categories)[k].id, now)
        && db.nextId == old(db.nextId) + 1
      case None =>
        && db.categories == old(db.categories) + [Category(old(db.nextId), owner, name, "tag")]
        && t == ReceiptTransaction(old(db.nextId) + 1, owner, data, old(db.nextId), now)
        && db.nextId == old(db.nextId) + 2
    ensures db.transactions == old(db.transactions) + [t]
    ensures exists k :: 0 <= k < |db.categories| && CategoryNamed(owner, Normalize(data.category))(db.categories[k])
    ensures forall k :: 0 <= k < |db.categories| && CategoryNamed(owner, Normalize(data.category))(db.categories[k]) ==>
      t.categoryId == Some(db.categories[k].id)
  {
    var name := Normalize(data.category);
    var categoryId: Id;
    match FirstIndex(db.categories, CategoryNamed(owner, name)) {
      case Some(k) =>
        categoryId := db.categories[k].id;
        forall j | 0 <= j < |db.categories| && CategoryNamed(owner, name)(db.categories[j]) ensures j == k {
          SameNameSameRow(db.categories, owner, name, j, k);
        }
      case None =>
        categoryId := AddCategory(db, owner, name);
        assert CategoryNamed(owner, name)(db.categories[|db.categories| - 1]);
    }
    var id := db.FreshId();
    t := ReceiptTransaction(id, owner, data, categoryId, now);
    AppendFresh(db.transactions, t, TransactionKey, id);
    db.transactions := db.transactions + [t];
  }

  /** The `create` half of `connectOrCreate`: a new category of that name
      for the caller, with the default icon. */
  method AddCategory(db: Database, owner: UserId, name: string) returns (id: Id)
    requires db.Valid() && FirstIndex(db.categories, CategoryNamed(owner, name)).None?
    modifies db`categories, db`nextId
    ensures db.Valid()
    ensures id == old(db.nextId) && db.nextId == id + 1
    ensures db.categories == old(db.categories) + [Category(id, owner, name, "tag")]
  {
    id := db.FreshId();
    var c := Category(id, owner, name, "tag");
    AppendFresh(db.categories, c, CategoryKey, id);
    AppendDistinct(db.categories, c, CategoryOwnerName);
    forall i | 0 <= i < |db.budgets| ensures HasCategory(db.categories + [c], db.budgets[i].categoryId) {
      HasCategoryGrows(db.categories, c, db.budgets[i].categoryId);
    }
    forall i | 0 <= i < |db.subscriptions| ensures HasCategory(db.categories + [c], db.subscriptions[i].categoryId) {
      HasCategoryGrows(db.categories, c, db.subscriptions[i].categoryId);
    }
    db.categories := db.categories + [c];
  }

  /** Under the `userId_name` constraint two categories of the caller with
      the same name are the same row. */
  lemma SameNameSameRow(categories: seq<Category>, owner: UserId, name: string, i: nat, j: nat)
    requires DistinctBy(categories, CategoryOwnerName)
    requires i < |categories| && j < |categories|
    requires CategoryNamed(owner, name)(categories[i]) && CategoryNamed(owner, name)(categories[j])
    ensures i == j
  {
    assert CategoryOwnerName(categories[i]) == CategoryOwnerName(categories[j]);
  }
}
