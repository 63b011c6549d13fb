/** Sequence operations that stand for the parts of a Prisma query the
    repositories rely on: `where` (Filter), `_sum` (SumOf), `orderBy`
    (SortBy) and `skip` / `take` (Page). */
module Seqs {

  import opened Common

  /** The rows of `s` that satisfy `p`, in their original order. */
  function Filter<T(==)>(s: seq<T>, p: T -> bool): (r: seq<T>)
    ensures |r| <= |s|
    ensures forall i :: 0 <= i < |r| ==> p(r[i]) && r[i] in s
    ensures forall i :: 0 <= i < |s| && p(s[i]) ==> s[i] in r
    ensures multiset(r) <= multiset(s)
  {
    if s == [] then []
    else
      assert s == [s[0]] + s[1..];
      var rest := Filter(s[1..], p);
      if p(s[0]) then
        assert multiset([s[0]] + rest) == multiset{s[0]} + multiset(rest);
        [s[0]] + rest
      else rest
  }

  /** No row satisfies `p`: the query is empty. */
  lemma {:induction false} FilterNone<T>(s: seq<T>, p: T -> bool)
    requires forall i :: 0 <= i < |s| ==> !p(s[i])
    ensures Filter(s, p) == []
  {
    if s != [] {
      FilterNone(s[1..], p);
    }
  }

  lemma {:induction false} FilterSnoc<T>(s: seq<T>, x: T, p: T -> bool)
    ensures Filter(s + [x], p) == Filter(s, p) + (if p(x) then [x] else [])
  {
    if s == [] {
      assert [] + [x] == [x];
    } else {
      assert (s + [x])[1..] == s[1..] + [x];
      FilterSnoc(s[1..], x, p);
    }
  }

  /** Filtering keeps the rows whose keys are pairwise distinct distinct. */
  lemma {:induction false} FilterDistinct<T, K>(s: seq<T>, p: T -> bool, key: T -> K)
    requires DistinctBy(s, key)
    ensures DistinctBy(Filter(s, p), key)
  {
    if s != [] {
      FilterDistinct(s[1..], p, key);
      forall y | y in Filter(s[1..], p) ensures key(y) != key(s[0]) {
        var j :| 0 <= j < |s[1..]| && s[1..][j] == y;
        assert s[j + 1] == y;
      }
    }
  }

  /** Filtering with predicates that agree on the rows gives the same rows. */
  lemma {:induction false} FilterAgree<T>(s: seq<T>, p: T -> bool, q: T -> bool)
    requires forall i :: 0 <= i < |s| ==> p(s[i]) == q(s[i])
    ensures Filter(s, p) == Filter(s, q)
  {
    if s != [] {
      FilterAgree(s[1..], p, q);
    }
  }

  /** The first index whose row satisfies `p`: Prisma's `findFirst`. */
  function FirstIndex<T>(s: seq<T>, p: T -> bool): (r: Option<nat>)
    ensures r.Some? ==> r.value < |s| && p(s[r.value]) && forall j :: 0 <= j < r.value ==> !p(s[j])
    ensures r.None? ==> forall j :: 0 <= j < |s| ==> !p(s[j])
  {
    if s == [] then None
    else if p(s[0]) then Some(0)
    else match FirstIndex(s[1..], p)
      case None => None
      case Some(k) => Some(k + 1)
  }

  /** The first match of `s + [x]`: the first match of `s`, else the new
      row if it matches. */
  lemma {:induction false} FirstIndexSnoc<T>(s: seq<T>, x: T, p: T -> bool)
    ensures FirstIndex(s + [x], p) == (if FirstIndex(s, p).Some? then FirstIndex(s, p) else if p(x) then Some(|s|) else None)
  {
    if s == [] {
      assert [] + [x] == [x];
      assert [x][1..] == [];
    } else {
      assert (s + [x])[1..] == s[1..] + [x];
      FirstIndexSnoc(s[1..], x, p);
    }
  }

  /** Replacing a row by one that matches alike keeps the first match. */
  lemma {:induction false} FirstIndexUpdate<T>(s: seq<T>, k: nat, x: T, p: T -> bool)
    requires k < |s| && p(s[k]) == p(x)
    ensures FirstIndex(s[k := x], p) == FirstIndex(s, p)
  {
    if k == 0 {
      assert s[k := x][1..] == s[1..];
    } else {
      assert s[k := x][1..] == s[1..][k - 1 := x];
      FirstIndexUpdate(s[1..], k - 1, x, p);
    }
  }

  /** `_sum` of `f` over the rows; 0 for no rows (the source's `|| 0`). */
  function SumOf<T>(s: seq<T>, f: T -> int): int
  {
    if s == [] then 0 else f(s[0]) + SumOf(s[1..], f)
  }

  lemma {:induction false} SumOfSnoc<T>(s: seq<T>, x: T, f: T -> int)
    ensures SumOf(s + [x], f) == SumOf(s, f) + f(x)
  {
    if s == [] {
      assert [] + [x] == [x];
    } else {
      assert (s + [x])[1..] == s[1..] + [x];
      SumOfSnoc(s[1..], x, f);
    }
  }

  /** Replacing one row changes the sum by the difference of the two. */
  lemma {:induction false} SumOfUpdate<T>(s: seq<T>, k: nat, x: T, f: T -> int)
    requires k < |s|
    ensures SumOf(s[k := x], f) == SumOf(s, f) - f(s[k]) + f(x)
  {
    if k == 0 {
      assert s[k := x][1..] == s[1..];
    } else {
      assert s[k := x][1..] == s[1..][k - 1 := x];
      SumOfUpdate(s[1..], k - 1, x, f);
    }
  }

  /** The filtered sum grows by the new row exactly when it matches. */
  lemma FilterSumSnoc<T>(s: seq<T>, x: T, p: T -> bool, f: T -> int)
    ensures SumOf(Filter(s + [x], p), f) == SumOf(Filter(s, p), f) + (if p(x) then f(x) else 0)
  {
    FilterSnoc(s, x, p);
    if p(x) {
      SumOfSnoc(Filter(s, p), x, f);
    } else {
      assert Filter(s, p) + [] == Filter(s, p);
    }
  }

  lemma {:induction false} SumOfNonNegative<T>(s: seq<T>, f: T -> int)
    requires forall x :: x in s ==> f(x) >= 0
    ensures SumOf(s, f) >= 0
  {
    if s != [] {
      assert forall x :: x in s[1..] ==> x in s;
      SumOfNonNegative(s[1..], f);
    }
  }

  /** No two rows share a key (a primary key or a unique constraint). */
  predicate DistinctBy<T, K(==)>(s: seq<T>, key: T -> K)
  {
    forall i, j :: 0 <= i < j < |s| ==> key(s[i]) != key(s[j])
  }

  /** Appending a row whose key is new keeps the keys distinct. */
  lemma AppendDistinct<T, K>(s: seq<T>, x: T, key: T -> K)
    requires DistinctBy(s, key)
    requires forall i :: 0 <= i < |s| ==> key(s[i]) != key(x)
    ensures DistinctBy(s + [x], key)
  {
    var r := s + [x];
    forall i, j | 0 <= i < j < |r| ensures key(r[i]) != key(r[j]) {
      assert r[i] == s[i];
      if j < |s| {
        assert r[j] == s[j];
      }
    }
  }

  /** `le(a, b)`: `a` may be listed before `b`. */
  predicate SortedBy<T>(s: seq<T>, le: (T, T) -> bool)
  {
    forall i, j :: 0 <= i < j < |s| ==> le(s[i], s[j])
  }

  /** The three parts of a concatenation, sliced back out. */
  lemma ThreeParts<T>(a: seq<T>, b: seq<T>, c: seq<T>)
    ensures |a + b + c| == |a| + |b| + |c|
    ensures (a + b + c)[..|a|] == a
    ensures (a + b + c)[|a|..|a| + |b|] == b
    ensures (a + b + c)[|a| + |b|..] == c
  {
    var r := a + b + c;
    assert r[..|a|] == a;
    assert r[|a|..|a| + |b|] == b;
    assert r[|a| + |b|..] == c;
  }

  /** Appending the next element of `rows` extends the copied prefix by
      one. */
  lemma PrefixGrows<T>(before: seq<T>, rows: seq<T>, i: nat, x: T)
    requires i < |rows| && rows[i] == x
    ensures before + rows[..i] + [x] == before + rows[..i + 1]
  {
    assert rows[..i + 1] == rows[..i] + [x];
  }

  /** Taking the first `n` of a sorted sequence keeps the first: anything
      left out may be listed after everything taken. */
  lemma SortedPrefixFirst<T>(s: seq<T>, n: nat, x: T, le: (T, T) -> bool)
    requires SortedBy(s, le) && x in s && x !in s[..Min(n, |s|)]
    ensures forall i :: 0 <= i < Min(n, |s|) ==> le(s[i], x)
  {
    var m := Min(n, |s|);
    var j :| 0 <= j < |s| && s[j] == x;
    assert forall k :: 0 <= k < m ==> s[..m][k] == s[k];
    assert m <= j;
  }

  /** A comparator that is total and transitive orders every sequence. */
  ghost predicate TotalPreorder<T(!new)>(le: (T, T) -> bool)
  {
    && (forall a, b :: le(a, b) || le(b, a))
    && (forall a, b, c :: le(a, b) && le(b, c) ==> le(a, c))
  }

  function Insert<T(==)>(x: T, s: seq<T>, le: (T, T) -> bool): (r: seq<T>)
    ensures multiset(r) == multiset(s) + multiset{x}
    ensures |r| == |s| + 1
  {
    if s == [] then [x]
    else if le(x, s[0]) then [x] + s
    else
      assert s == [s[0]] + s[1..];
      [s[0]] + Insert(x, s[1..], le)
  }

  /** `orderBy`: a stable-enough insertion sort with the comparator `le`. */
  function SortBy<T(==)>(s: seq<T>, le: (T, T) -> bool): (r: seq<T>)
    ensures multiset(r) == multiset(s)
    ensures |r| == |s|
  {
    if s == [] then []
    else
      assert s == [s[0]] + s[1..];
      Insert(s[0], SortBy(s[1..], le), le)
  }

  lemma {:induction false} InsertSorted<T(!new)>(x: T, s: seq<T>, le: (T, T) -> bool)
    requires TotalPreorder(le) && SortedBy(s, le)
    ensures SortedBy(Insert(x, s, le), le)
  {
    if s != [] && !le(x, s[0]) {
      var tail := Insert(x, s[1..], le);
      InsertSorted(x, s[1..], le);
      forall y | y in tail ensures le(s[0], y) {
        assert y in multiset(tail);
        if y != x {
          assert y in multiset(s[1..]);
          var j :| 0 <= j < |s[1..]| && s[1..][j] == y;
          assert s[j + 1] == y;
        }
      }
      forall i, j | 0 <= i < j < |[s[0]] + tail| ensures le(([s[0]] + tail)[i], ([s[0]] + tail)[j]) {
        if i == 0 {
          assert ([s[0]] + tail)[j] == tail[j - 1];
          assert tail[j - 1] in tail;
        }
      }
    }
  }

  /** SortBy lists the rows in the comparator's order. */
  lemma {:induction false} SortBySorted<T(!new)>(s: seq<T>, le: (T, T) -> bool)
    requires TotalPreorder(le)
    ensures SortedBy(SortBy(s, le), le)
  {
    if s != [] {
      SortBySorted(s[1..], le);
      InsertSorted(s[0], SortBy(s[1..], le), le);
    }
  }

  lemma {:induction false} InsertDistinct<T, K>(x: T, s: seq<T>, le: (T, T) -> bool, key: T -> K)
    requires DistinctBy(s, key)
    requires forall y :: y in s ==> key(y) != key(x)
    ensures DistinctBy(Insert(x, s, le), key)
  {
    if s == [] {
    } else if le(x, s[0]) {
      ConsDistinct(x, s, key);
    } else {
      var tail := Insert(x, s[1..], le);
      TailDistinct(s, key);
      InsertDistinct(x, s[1..], le, key);
      forall y | y in tail ensures key(y) != key(s[0]) {
        assert y in multiset(tail);
        if y != x {
          assert y in multiset(s[1..]);
          var j :| 0 <= j < |s[1..]| && s[1..][j] == y;
          assert s[j + 1] == y;
        }
      }
      ConsDistinct(s[0], tail, key);
    }
  }

  lemma ConsDistinct<T, K>(h: T, t: seq<T>, key: T -> K)
    requires DistinctBy(t, key) && forall y :: y in t ==> key(y) != key(h)
    ensures DistinctBy([h] + t, key)
  {
    var r := [h] + t;
    forall i, j | 0 <= i < j < |r| ensures key(r[i]) != key(r[j]) {
      assert r[j] == t[j - 1];
      if i == 0 {
        assert t[j - 1] in t;
      } else {
        assert r[i] == t[i - 1];
      }
    }
  }

  lemma TailDistinct<T, K>(s: seq<T>, key: T -> K)
    requires s != [] && DistinctBy(s, key)
    ensures DistinctBy(s[1..], key)
    ensures forall y :: y in s[1..] ==> y in s
  {
    forall i, j | 0 <= i < j < |s| - 1 ensures key(s[1..][i]) != key(s[1..][j]) {
      assert s[1..][i] == s[i + 1] && s[1..][j] == s[j + 1];
    }
  }

  /** Sorting keeps a primary key a primary key. */
  lemma {:induction false} SortByDistinct<T, K>(s: seq<T>, le: (T, T) -> bool, key: T -> K)
    requires DistinctBy(s, key)
    ensures DistinctBy(SortBy(s, le), key)
  {
    if s != [] {
      SortByDistinct(s[1..], le, key);
      var sorted := SortBy(s[1..], le);
      forall y | y in sorted ensures key(y) != key(s[0]) {
        assert y in multiset(sorted);
        assert y in multiset(s[1..]);
        var j :| 0 <= j < |s[1..]| && s[1..][j] == y;
        assert s[j + 1] == y;
      }
      InsertDistinct(s[0], sorted, le, key);
    }
  }

  /** Prisma's `skip` then `take`; a missing `take` is Option-free here:
      callers pass |s| when the source omits it. */
  function Page<T>(s: seq<T>, skip: nat, take: nat): (r: seq<T>)
    ensures |r| <= take
    ensures skip <= |s| ==> |r| == Min(take, |s| - skip)
    ensures forall i :: 0 <= i < |r| ==> skip + i < |s| && r[i] == s[skip + i]
  {
    if skip >= |s| then [] else s[skip..][..Min(take, |s| - skip)]
  }

  function Min(a: int, b: int): int { if a <= b then a else b }
}
