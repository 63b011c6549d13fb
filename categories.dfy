/** The category listing: cursor pagination over all categories ordered by
    name. */
module Categories {

  import opened Common
  import opened Seqs
  import opened Store

  /** Ascending name order, character by character (code-point order; a
      proper prefix comes first). */
  predicate NameLe(a: string, b: string)
    decreases |a|
  {
    if a == [] then true
    else if b == [] then false
    else if a[0] != b[0] then a[0] < b[0]
    else NameLe(a[1..], b[1..])
  }

  lemma {:induction false} NameLeTotal(a: string, b: string)
    ensures NameLe(a, b) || NameLe(b, a)
    decreases |a|
  {
    if a != [] && b != [] && a[0] == b[0] {
      NameLeTotal(a[1..], b[1..]);
    }
  }

  lemma {:induction false} NameLeTransitive(a: string, b: string, c: string)
    requires NameLe(a, b) && NameLe(b, c)
    ensures NameLe(a, c)
    decreases |a|
  {
    if a != [] && b != [] && c != [] && a[0] == b[0] && b[0] == c[0] {
      NameLeTransitive(a[1..], b[1..], c[1..]);
    }
  }

  /** `orderBy: { name: 'asc' }`. */
  function ByName(): (Category, Category) -> bool
  {
    (x: Category, y: Category) => NameLe(x.name, y.name)
  }

  lemma ByNameIsTotal()
    ensures TotalPreorder(ByName())
  {
    forall x: Category, y: Category ensures ByName()(x, y) || ByName()(y, x) {
      NameLeTotal(x.name, y.name);
    }
    forall x: Category, y: Category, z: Category | ByName()(x, y) && ByName()(y, z) ensures ByName()(x, z) {
      NameLeTransitive(x.name, y.name, z.name);
    }
  }

  /** Every category, ordered by name. */
  function InNameOrder(categories: seq<Category>): (r: seq<Category>)
    ensures multiset(r) == multiset(categories)
    ensures SortedBy(r, ByName())
  {
    ByNameIsTotal();
    SortBySorted(categories, ByName());
    SortBy(categories, ByName())
  }

  function CategoryWithId(id: Id): Category -> bool
  {
    (c: Category) => c.id == id
  }

  /** Where the query starts in the name order: at the top without a
      cursor, just after the cursor row with one, and nowhere when no row
      has the cursor's id. */
  function Start(sorted: seq<Category>, cursor: Option<Id>): (r: Option<nat>)
    ensures cursor.None? ==> r == Some(0)
    ensures cursor.Some? ==> (r.None? <==> FirstIndex(sorted, CategoryWithId(cursor.value)).None?)
    ensures r.Some? ==> r.value <= |sorted|
    ensures cursor.Some? && r.Some? ==> 0 < r.value && sorted[r.value - 1].id == cursor.value
  {
    match cursor
    case None => Some(0)
    case Some(c) =>
      match FirstIndex(sorted, CategoryWithId(c))
      case None => None
      case Some(k) => Some(k + 1)
  }

  /** What the query can reach: the name order from its start on. */
  function Remaining(categories: seq<Category>, cursor: Option<Id>): (r: seq<Category>)
    ensures cursor.None? ==> r == InNameOrder(categories)
    ensures cursor.Some? && FirstIndex(InNameOrder(categories), CategoryWithId(cursor.value)).None? ==> r == []
    ensures SortedBy(r, ByName())
    ensures forall i :: 0 <= i < |r| ==> r[i] in categories
  {
    var sorted := InNameOrder(categories);
    match Start(sorted, cursor)
    case None => []
    case Some(start) =>
      SuffixSorted(sorted, start);
      SuffixMembers(sorted, categories, start);
      sorted[start..]
  }

  lemma SuffixSorted(sorted: seq<Category>, start: nat)
    requires SortedBy(sorted, ByName()) && start <= |sorted|
    ensures SortedBy(sorted[start..], ByName())
  {
    forall i, j | 0 <= i < j < |sorted| - start ensures ByName()(sorted[start..][i], sorted[start..][j]) {
      assert sorted[start..][i] == sorted[start + i] && sorted[start..][j] == sorted[start + j];
    }
  }

  lemma SuffixMembers(sorted: seq<Category>, categories: seq<Category>, start: nat)
    requires multiset(sorted) == multiset(categories) && start <= |sorted|
    ensures forall i :: 0 <= i < |sorted| - start ==> sorted[start..][i] in categories
  {
    forall i | 0 <= i < |sorted| - start ensures sorted[start..][i] in categories {
      assert sorted[start..][i] == sorted[start + i];
      assert sorted[start + i] in multiset(sorted);
    }
  }

  /** The response of `getAllCategories`. */
  datatype CategoryPage = CategoryPage(data: seq<Category>, total: nat, lastCursor: Option<Id>, hasNextPage: bool)

  /** `getAllCategories({ limit, cursor })`: fetch `limit + 1` rows, and if
      the extra one came back, pop it and take the id of the new last row
      as the next cursor. */
  method GetAllCategories(categories: seq<Category>, limit: nat, cursor: Option<Id>) returns (page: CategoryPage)
    ensures var rest := Remaining(categories, cursor);
      && page.data == rest[..Min(limit, |rest|)]
      && page.total == |page.data|
      && (page.hasNextPage <==> page.lastCursor.Some?)
      && (page.hasNextPage <==> limit > 0 && |rest| > limit)
      && (page.hasNextPage ==> page.lastCursor == Some(page.data[|page.data| - 1].id))
  {
    var fetched := Page(Remaining(categories, cursor), 0, limit + 1);
    var data := fetched;
    var nextCursor: Option<Id> := None;
    if |data| > limit {
      data := data[..|data| - 1];
      if |data| > 0 {
        nextCursor := Some(data[|data| - 1].id);
      }
    }
    page := CategoryPage(data, |data|, nextCursor, nextCursor.Some?);
  }

  /** With distinct ids, the row with a given id is found at its own
      position. */
  lemma FindsOwnId(s: seq<Category>, k: nat)
    requires DistinctBy(s, CategoryKey) && k < |s|
    ensures FirstIndex(s, CategoryWithId(s[k].id)) == Some(k)
  {
    assert CategoryWithId(s[k].id)(s[k]);
    var r := FirstIndex(s, CategoryWithId(s[k].id)).value;
    assert CategoryKey(s[r]) == CategoryKey(s[k]);
  }

  /** Passing back `lastCursor` continues right after the last row
      returned: the next query reaches exactly the rows after the page, so
      no row is listed twice and none is skipped. */
  lemma NextPageFollows(categories: seq<Category>, limit: nat, cursor: Option<Id>)
    requires DistinctBy(categories, CategoryKey)
    requires limit > 0 && |Remaining(categories, cursor)| > limit
    ensures var rest := Remaining(categories, cursor);
      && Remaining(categories, Some(rest[limit - 1].id)) == rest[limit..]
      && forall i, j :: 0 <= i < limit <= j < |rest| ==> rest[i].id != rest[j].id
  {
    var sorted := InNameOrder(categories);
    SortByDistinct(categories, ByName(), CategoryKey);
    RemainingFrom(categories, cursor);
    var start := Start(sorted, cursor).value;
    NextCursor(sorted, start, limit);
    RemainingFrom(categories, Some(sorted[start + limit - 1].id));
    SuffixKeysDistinct(sorted, start, limit);
  }

  /** The cursor taken from row `start + limit - 1` starts the next query
      right after that row. */
  lemma NextCursor(sorted: seq<Category>, start: nat, limit: nat)
    requires DistinctBy(sorted, CategoryKey)
    requires limit > 0 && start + limit < |sorted|
    ensures Start(sorted, Some(sorted[start + limit - 1].id)) == Some(start + limit)
    ensures sorted[start..][limit - 1] == sorted[start + limit - 1]
    ensures sorted[start + limit..] == sorted[start..][limit..]
  {
    FindsOwnId(sorted, start + limit - 1);
  }

  /** The rows of a page and the rows after it have different ids. */
  lemma SuffixKeysDistinct(sorted: seq<Category>, start: nat, limit: nat)
    requires DistinctBy(sorted, CategoryKey) && start + limit <= |sorted|
    ensures var rest := sorted[start..];
      forall i, j :: 0 <= i < limit <= j < |rest| ==> rest[i].id != rest[j].id
  {
    var rest := sorted[start..];
    forall i, j | 0 <= i < limit <= j < |rest| ensures rest[i].id != rest[j].id {
      assert rest[i] == sorted[start + i] && rest[j] == sorted[start + j];
      assert CategoryKey(sorted[start + i]) != CategoryKey(sorted[start + j]);
    }
  }

  lemma RemainingFrom(categories: seq<Category>, cursor: Option<Id>)
    ensures var sorted := InNameOrder(categories);
      Start(sorted, cursor).Some? ==> Remaining(categories, cursor) == sorted[Start(sorted, cursor).value..]
  {
  }

  /** Without a cursor the first page holds the alphabetically first
      `limit` categories. */
  lemma FirstPage(categories: seq<Category>, limit: nat, x: Category)
    requires x in categories && x !in Remaining(categories, None)[..Min(limit, |categories|)]
    ensures var first := Remaining(categories, None)[..Min(limit, |categories|)];
      forall i :: 0 <= i < |first| ==> NameLe(first[i].name, x.name)
  {
    var sorted := InNameOrder(categories);
    assert x in multiset(sorted);
    SortedPrefixFirst(sorted, limit, x, ByName());
  }
}
