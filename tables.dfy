/**
 * Database tables and the queries the services issue against them.
 *
 * A table maps row ids to rows. Ids are handed out in increasing order, so
 * "the first row" of a query without an explicit ordering is the row with
 * the smallest id, i.e. the one inserted earliest.
 */
module Tables {
  import opened Prelude

  datatype RawTable<R> = RawTable(rows: map<Id, R>, next: Id)

  /** Every id in use lies below the id the next insert will hand out. */
  type Table<R> = t: RawTable<R> | forall k :: k in t.rows ==> k < t.next
    witness RawTable(map[], 0)

  function EmptyTable<R>(): (t: Table<R>)
    ensures t.rows == map[]
  {
    RawTable(map[], 0)
  }

  /** `create`: stores `r` under a fresh id, greater than every id in use. */
  function Insert<R>(t: Table<R>, r: R): (res: (Table<R>, Id))
    ensures res.1 !in t.rows
    ensures forall k :: k in t.rows ==> k < res.1
    ensures res.0.rows == t.rows[res.1 := r]
  {
    (RawTable(t.rows[t.next := r], t.next + 1), t.next)
  }

  /** `update`: replaces the row stored under an existing id. */
  function Update<R>(t: Table<R>, k: Id, r: R): (t': Table<R>)
    requires k in t.rows
    ensures t'.rows.Keys == t.rows.Keys
    ensures t'.rows[k] == r
    ensures forall j :: j in t.rows && j != k ==> t'.rows[j] == t.rows[j]
  {
    RawTable(t.rows[k := r], t.next)
  }

  /** `delete`: drops the row stored under an id. */
  function Remove<R>(t: Table<R>, k: Id): (t': Table<R>)
    ensures t'.rows.Keys == t.rows.Keys - {k}
    ensures forall j :: j in t'.rows ==> t'.rows[j] == t.rows[j]
  {
    RawTable(t.rows - {k}, t.next)
  }

  predicate Increasing(s: seq<Id>) {
    forall i, j :: 0 <= i < j < |s| ==> s[i] < s[j]
  }

  /** The ids below `n` whose rows satisfy `p`, in increasing order. */
  function SelectBelow<R>(rows: map<Id, R>, p: (Id, R) -> bool, n: nat): (ids: seq<Id>)
    ensures Increasing(ids)
    ensures forall k :: k in ids <==> k < n && k in rows && p(k, rows[k])
  {
    if n == 0 then []
    else
      var prefix := SelectBelow(rows, p, n - 1);
      assert forall i :: 0 <= i < |prefix| ==> prefix[i] in prefix;
      if n - 1 in rows && p(n - 1, rows[n - 1]) then prefix + [n - 1] else prefix
  }

  /** `findMany` with a `where` filter and no ordering: the matching ids, oldest first. */
  function Select<R>(t: Table<R>, p: (Id, R) -> bool): (ids: seq<Id>)
    ensures Increasing(ids)
    ensures forall k :: k in ids <==> k in t.rows && p(k, t.rows[k])
  {
    SelectBelow(t.rows, p, t.next)
  }

  /** `findFirst` (and `findUnique`): the earliest row that matches, if any. */
  function FindFirst<R>(t: Table<R>, p: (Id, R) -> bool): (r: Option<Id>)
    ensures r.Some? ==> r.value in t.rows && p(r.value, t.rows[r.value])
    ensures r.Some? ==> forall k :: k in t.rows && k < r.value ==> !p(k, t.rows[k])
    ensures r.None? <==> forall k :: k in t.rows ==> !p(k, t.rows[k])
  {
    var ids := Select(t, p);
    if |ids| == 0 then None
    else
      assert forall k :: k in t.rows && p(k, t.rows[k]) ==> ids[0] <= k by {
        forall k | k in t.rows && p(k, t.rows[k]) ensures ids[0] <= k {
          var i :| 0 <= i < |ids| && ids[i] == k;
          assert i == 0 || ids[0] < ids[i];
        }
      }
      Some(ids[0])
  }

  function Elements(s: seq<Id>): set<Id> {
    set k | k in s
  }

  /** The ids of the rows that satisfy `p`. */
  function Matching<R>(t: Table<R>, p: (Id, R) -> bool): set<Id> {
    set k | k in t.rows && p(k, t.rows[k])
  }

  /** A strictly increasing sequence has as many distinct elements as entries. */
  lemma {:induction false} IncreasingCard(s: seq<Id>)
    requires Increasing(s)
    ensures |Elements(s)| == |s|
  {
    if s != [] {
      var tail := s[1..];
      IncreasingCard(tail);
      assert Elements(s) == Elements(tail) + {s[0]};
      assert s[0] !in Elements(tail);
    }
  }

  /** `count` with a `where` filter: the number of matching rows. */
  function Count<R>(t: Table<R>, p: (Id, R) -> bool): (n: nat)
    ensures n == |Matching(t, p)|
  {
    var ids := Select(t, p);
    IncreasingCard(ids);
    assert Elements(ids) == Matching(t, p);
    |ids|
  }

  /** No more rows match than there are rows. */
  lemma CountAtMost<R>(t: Table<R>, p: (Id, R) -> bool)
    ensures Count(t, p) <= |t.rows|
  {
    var m := Matching(t, p);
    assert t.rows.Keys == m + (t.rows.Keys - m);
    assert m * (t.rows.Keys - m) == {};
    assert |t.rows.Keys| == |t.rows|;
  }

  /** A filter every row passes counts every row. */
  lemma CountAll<R>(t: Table<R>, p: (Id, R) -> bool)
    requires forall k :: k in t.rows ==> p(k, t.rows[k])
    ensures Count(t, p) == |t.rows|
  {
    assert Matching(t, p) == t.rows.Keys;
    assert |t.rows.Keys| == |t.rows|;
  }

  /** The sum of `f` over the rows below `n` that satisfy `p`. */
  function SumBelow<R>(rows: map<Id, R>, p: (Id, R) -> bool, f: R -> int, n: nat): int
  {
    if n == 0 then 0
    else SumBelow(rows, p, f, n - 1) + (if n - 1 in rows && p(n - 1, rows[n - 1]) then f(rows[n - 1]) else 0)
  }

  /** `aggregate({ _sum })` over the rows that satisfy `p`; an empty selection sums to 0. */
  function Sum<R>(t: Table<R>, p: (Id, R) -> bool, f: R -> int): int {
    SumBelow(t.rows, p, f, t.next)
  }

  /** A sum below `n` depends only on which rows there are and on what `p` and `f` say of them. */
  lemma {:induction false} SumBelowAgree<R>(rows: map<Id, R>, rows': map<Id, R>, p: (Id, R) -> bool, f: R -> int, n: nat)
    requires forall k :: k < n ==> (k in rows <==> k in rows')
    requires forall k :: k < n && k in rows ==> p(k, rows'[k]) == p(k, rows[k]) && f(rows'[k]) == f(rows[k])
    ensures SumBelow(rows', p, f, n) == SumBelow(rows, p, f, n)
  {
    if n > 0 {
      SumBelowAgree(rows, rows', p, f, n - 1);
    }
  }

  /** Inserting a row adds its contribution, and nothing else, to a sum. */
  lemma SumInsert<R>(t: Table<R>, r: R, p: (Id, R) -> bool, f: R -> int)
    ensures var (t', id) := Insert(t, r);
      Sum(t', p, f) == Sum(t, p, f) + (if p(id, r) then f(r) else 0)
  {
    var (t', id) := Insert(t, r);
    SumBelowAgree(t.rows, t'.rows, p, f, t.next);
  }

  /** Rewriting a row so that neither `p` nor `f` changes on it leaves a sum unchanged. */
  lemma SumUpdate<R>(t: Table<R>, k: Id, r: R, p: (Id, R) -> bool, f: R -> int)
    requires k in t.rows
    requires p(k, r) == p(k, t.rows[k]) && f(r) == f(t.rows[k])
    ensures Sum(Update(t, k, r), p, f) == Sum(t, p, f)
  {
    SumBelowAgree(t.rows, Update(t, k, r).rows, p, f, t.next);
  }

  lemma {:induction false} SumBelowNone<R>(rows: map<Id, R>, p: (Id, R) -> bool, f: R -> int, n: nat)
    requires forall k :: k < n && k in rows ==> !p(k, rows[k])
    ensures SumBelow(rows, p, f, n) == 0
  {
    if n > 0 {
      SumBelowNone(rows, p, f, n - 1);
    }
  }

  /** A sum over a selection no row matches is 0. */
  lemma SumNone<R>(t: Table<R>, p: (Id, R) -> bool, f: R -> int)
    requires forall k :: k in t.rows ==> !p(k, t.rows[k])
    ensures Sum(t, p, f) == 0
  {
    SumBelowNone(t.rows, p, f, t.next);
  }

  /** The rows stored under `ids`, each paired with its id, as Prisma returns them. */
  function Rows<R>(t: Table<R>, ids: seq<Id>): (rs: seq<(Id, R)>)
    requires forall k :: k in ids ==> k in t.rows
    ensures |rs| == |ids|
    ensures forall i :: 0 <= i < |ids| ==> rs[i] == (ids[i], t.rows[ids[i]])
  {
    seq(|ids|, i requires 0 <= i < |ids| => (ids[i], t.rows[ids[i]]))
  }

  predicate SortedBy<T>(s: seq<T>, key: T -> int) {
    forall i, j :: 0 <= i < j < |s| ==> key(s[i]) <= key(s[j])
  }

  function InsertSorted<T>(x: T, s: seq<T>, key: T -> int): (r: seq<T>)
    requires SortedBy(s, key)
    ensures SortedBy(r, key)
    ensures multiset(r) == multiset(s) + multiset{x}
    ensures forall y :: y in r ==> y == x || y in s
  {
    if s == [] then [x]
    else if key(x) <= key(s[0]) then [x] + s
    else
      var tail := InsertSorted(x, s[1..], key);
      assert s == [s[0]] + s[1..];
      assert forall y :: y in tail ==> key(s[0]) <= key(y) by {
        forall y | y in tail ensures key(s[0]) <= key(y) {
          if y != x {
            var i :| 0 <= i < |s[1..]| && s[1..][i] == y;
            assert s[i + 1] == y;
          }
        }
      }
      assert forall j :: 0 <= j < |tail| ==> tail[j] in tail;
      [s[0]] + tail
  }

  /** `orderBy` on a key: a reordering of `s` whose keys never decrease. */
  function SortBy<T>(s: seq<T>, key: T -> int): (r: seq<T>)
    ensures SortedBy(r, key)
    ensures multiset(r) == multiset(s)
  {
    if s == [] then []
    else
      assert s == [s[0]] + s[1..];
      InsertSorted(s[0], SortBy(s[1..], key), key)
  }

  /**
   * `rs` lists the rows that satisfy `p`: each entry is a matching row with
   * its id, every matching row is listed, and no row is listed twice.
   */
  ghost predicate Lists<R>(t: Table<R>, p: (Id, R) -> bool, rs: seq<(Id, R)>) {
    && (forall i :: 0 <= i < |rs| ==> rs[i].0 in t.rows && rs[i].1 == t.rows[rs[i].0] && p(rs[i].0, rs[i].1))
    && (forall k :: k in t.rows && p(k, t.rows[k]) ==> (k, t.rows[k]) in rs)
    && (forall i, j :: 0 <= i < j < |rs| ==> rs[i].0 != rs[j].0)
  }

  lemma TwiceCounted<T>(s: seq<T>, i: nat, j: nat)
    requires i < j < |s| && s[i] == s[j]
    ensures multiset(s)[s[i]] >= 2
  {
    assert s == s[..j] + s[j..];
    assert s[i] in s[..j];
    assert s[j] == s[j..][0];
  }

  /** In the rows of an increasing id list, each row occurs once. */
  lemma RowsOnce<R>(t: Table<R>, ids: seq<Id>, i: nat)
    requires Increasing(ids)
    requires forall k :: k in ids ==> k in t.rows
    requires i < |ids|
    ensures multiset(Rows(t, ids))[(ids[i], t.rows[ids[i]])] == 1
  {
    var all := Rows(t, ids);
    var x := all[i];
    assert all == all[..i] + [x] + all[i + 1..];
    assert x !in all[..i] by {
      forall j | 0 <= j < i ensures all[j] != x {
        assert all[j].0 == ids[j] < ids[i];
      }
    }
    assert x !in all[i + 1..] by {
      forall j | i + 1 <= j < |all| ensures all[j] != x {
        assert all[j].0 == ids[j] > ids[i];
      }
    }
    assert multiset(all) == multiset(all[..i]) + multiset{x} + multiset(all[i + 1..]);
  }

  /** Any reordering of the selected rows lists them. */
  lemma ListsReordering<R>(t: Table<R>, p: (Id, R) -> bool, rs: seq<(Id, R)>)
    requires multiset(rs) == multiset(Rows(t, Select(t, p)))
    ensures Lists(t, p, rs)
  {
    var ids := Select(t, p);
    var all := Rows(t, ids);
    forall i | 0 <= i < |rs|
      ensures rs[i].0 in t.rows && rs[i].1 == t.rows[rs[i].0] && p(rs[i].0, rs[i].1)
    {
      assert rs[i] in multiset(all);
    }
    forall k | k in t.rows && p(k, t.rows[k])
      ensures (k, t.rows[k]) in rs
    {
      var i :| 0 <= i < |ids| && ids[i] == k;
      assert all[i] in multiset(rs);
    }
    forall i, j | 0 <= i < j < |rs| ensures rs[i].0 != rs[j].0 {
      if rs[i].0 == rs[j].0 {
        var k := rs[i].0;
        var i' :| 0 <= i' < |ids| && ids[i'] == k;
        RowsOnce(t, ids, i');
        TwiceCounted(rs, i, j);
        assert false;
      }
    }
  }

  /** The sum of `f` over the rows of a listing. */
  function SumOf<R>(rs: seq<(Id, R)>, f: R -> int): int {
    if rs == [] then 0 else f(rs[0].1) + SumOf(rs[1..], f)
  }

  lemma {:induction false} SumOfConcat<R>(a: seq<(Id, R)>, b: seq<(Id, R)>, f: R -> int)
    ensures SumOf(a + b, f) == SumOf(a, f) + SumOf(b, f)
  {
    if a == [] {
      assert a + b == b;
    } else {
      assert (a + b)[0] == a[0];
      assert (a + b)[1..] == a[1..] + b;
      SumOfConcat(a[1..], b, f);
    }
  }

  /** Taking entry `i` out of a listing takes its contribution out of the sum. */
  lemma SumOfWithout<R>(rs: seq<(Id, R)>, i: nat, f: R -> int)
    requires i < |rs|
    ensures SumOf(rs, f) == SumOf(rs[..i] + rs[i + 1..], f) + f(rs[i].1)
  {
    assert rs == rs[..i] + [rs[i]] + rs[i + 1..];
    SumOfConcat(rs[..i] + [rs[i]], rs[i + 1..], f);
    SumOfConcat(rs[..i], [rs[i]], f);
    SumOfConcat(rs[..i], rs[i + 1..], f);
  }

  /** `Lists`, restricted to the ids below `n`. */
  ghost predicate ListsBelow<R>(rows: map<Id, R>, p: (Id, R) -> bool, n: nat, rs: seq<(Id, R)>) {
    && (forall i :: 0 <= i < |rs| ==> rs[i].0 < n && rs[i].0 in rows && rs[i].1 == rows[rs[i].0] && p(rs[i].0, rs[i].1))
    && (forall k :: k < n && k in rows && p(k, rows[k]) ==> (k, rows[k]) in rs)
    && (forall i, j :: 0 <= i < j < |rs| ==> rs[i].0 != rs[j].0)
  }

  /** Entry `j` of a listing with entry `i` taken out. */
  lemma WithoutAt<T>(rs: seq<T>, i: nat, j: nat)
    requires i < |rs| && j < |rs| - 1
    ensures (rs[..i] + rs[i + 1..])[j] == rs[if j < i then j else j + 1]
  {
  }

  /** Without the entry of row `n - 1`, every entry of a listing below `n` is a matching row below `n - 1`. */
  lemma PeelEntries<R>(rows: map<Id, R>, p: (Id, R) -> bool, n: nat, rs: seq<(Id, R)>, i: nat)
    requires 0 < n && ListsBelow(rows, p, n, rs)
    requires i < |rs| && rs[i].0 == n - 1
    ensures var rest := rs[..i] + rs[i + 1..];
      forall j :: 0 <= j < |rest| ==>
        rest[j].0 < n - 1 && rest[j].0 in rows && rest[j].1 == rows[rest[j].0] && p(rest[j].0, rest[j].1)
  {
    var rest := rs[..i] + rs[i + 1..];
    forall j | 0 <= j < |rest|
      ensures rest[j].0 < n - 1 && rest[j].0 in rows && rest[j].1 == rows[rest[j].0] && p(rest[j].0, rest[j].1)
    {
      var j' := if j < i then j else j + 1;
      WithoutAt(rs, i, j);
      if j < i {
        assert rs[j'].0 != rs[i].0;
      } else {
        assert rs[i].0 != rs[j'].0;
      }
    }
  }

  /** Taking an entry out of a listing keeps its ids distinct. */
  lemma PeelDistinct<R>(rs: seq<(Id, R)>, i: nat)
    requires forall a, b :: 0 <= a < b < |rs| ==> rs[a].0 != rs[b].0
    requires i < |rs|
    ensures var rest := rs[..i] + rs[i + 1..];
      forall a, b :: 0 <= a < b < |rest| ==> rest[a].0 != rest[b].0
  {
    var rest := rs[..i] + rs[i + 1..];
    forall a, b | 0 <= a < b < |rest| ensures rest[a].0 != rest[b].0 {
      WithoutAt(rs, i, a);
      WithoutAt(rs, i, b);
    }
  }

  /** Without the entry of row `n - 1`, a listing below `n` still holds every matching row below `n - 1`. */
  lemma PeelComplete<R>(rows: map<Id, R>, p: (Id, R) -> bool, n: nat, rs: seq<(Id, R)>, i: nat)
    requires 0 < n && ListsBelow(rows, p, n, rs)
    requires i < |rs| && rs[i].0 == n - 1
    ensures var rest := rs[..i] + rs[i + 1..];
      forall k :: k < n - 1 && k in rows && p(k, rows[k]) ==> (k, rows[k]) in rest
  {
    var rest := rs[..i] + rs[i + 1..];
    forall k | k < n - 1 && k in rows && p(k, rows[k]) ensures (k, rows[k]) in rest {
      var j :| 0 <= j < |rs| && rs[j] == (k, rows[k]);
      var j' := if j < i then j else j - 1;
      WithoutAt(rs, i, j');
    }
  }

  /** A listing below `n` holds row `n - 1` when it matches; without it, it lists the rows below `n - 1`. */
  lemma ListsBelowPeel<R>(rows: map<Id, R>, p: (Id, R) -> bool, n: nat, rs: seq<(Id, R)>) returns (i: nat)
    requires 0 < n && ListsBelow(rows, p, n, rs)
    requires n - 1 in rows && p(n - 1, rows[n - 1])
    ensures i < |rs| && rs[i].1 == rows[n - 1]
    ensures ListsBelow(rows, p, n - 1, rs[..i] + rs[i + 1..])
  {
    i :| 0 <= i < |rs| && rs[i] == (n - 1, rows[n - 1]);
    PeelEntries(rows, p, n, rs, i);
    PeelDistinct(rs, i);
    PeelComplete(rows, p, n, rs, i);
  }

  /** When row `n - 1` does not match, a listing below `n` is one below `n - 1`. */
  lemma ListsBelowSkip<R>(rows: map<Id, R>, p: (Id, R) -> bool, n: nat, rs: seq<(Id, R)>)
    requires 0 < n && ListsBelow(rows, p, n, rs)
    requires !(n - 1 in rows && p(n - 1, rows[n - 1]))
    ensures ListsBelow(rows, p, n - 1, rs)
  {
  }

  lemma FirstIdBelow<R>(rs: seq<(Id, R)>, n: nat)
    requires forall i :: 0 <= i < |rs| ==> rs[i].0 < n
    ensures rs == [] || rs[0].0 < n
  {
  }

  /** Nothing lists below 0. */
  lemma ListsBelowZero<R>(rows: map<Id, R>, p: (Id, R) -> bool, rs: seq<(Id, R)>)
    requires ListsBelow(rows, p, 0, rs)
    ensures rs == []
  {
    FirstIdBelow(rs, 0);
  }

  lemma {:induction false} ListedSumBelow<R>(rows: map<Id, R>, p: (Id, R) -> bool, f: R -> int, n: nat, rs: seq<(Id, R)>)
    requires ListsBelow(rows, p, n, rs)
    ensures SumOf(rs, f) == SumBelow(rows, p, f, n)
  {
    if n == 0 {
      ListsBelowZero(rows, p, rs);
    } else if n - 1 in rows && p(n - 1, rows[n - 1]) {
      var i := ListsBelowPeel(rows, p, n, rs);
      ListedSumBelow(rows, p, f, n - 1, rs[..i] + rs[i + 1..]);
      SumOfWithout(rs, i, f);
    } else {
      ListsBelowSkip(rows, p, n, rs);
      ListedSumBelow(rows, p, f, n - 1, rs);
    }
  }

  /** Any listing of the rows that satisfy `p` sums to the table's sum over them. */
  lemma ListedSum<R>(t: Table<R>, p: (Id, R) -> bool, f: R -> int, rs: seq<(Id, R)>)
    requires Lists(t, p, rs)
    ensures SumOf(rs, f) == Sum(t, p, f)
  {
    ListedSumBelow(t.rows, p, f, t.next, rs);
  }

  /** `findMany` with `orderBy: { createdAt: 'desc' }`: the matching rows, newest first. */
  function NewestFirst<R>(t: Table<R>, p: (Id, R) -> bool, created: R -> Time): (rs: seq<(Id, R)>)
    ensures Lists(t, p, rs)
    ensures forall i, j :: 0 <= i < j < |rs| ==> created(rs[i].1) >= created(rs[j].1)
  {
    var key := (e: (Id, R)) => -created(e.1);
    var rs := SortBy(Rows(t, Select(t, p)), key);
    assert forall i, j :: 0 <= i < j < |rs| ==> key(rs[i]) <= key(rs[j]);
    ListsReordering(t, p, rs);
    rs
  }

  /** `findMany` with `orderBy: { createdAt: 'asc' }`: the matching rows, oldest first. */
  function OldestFirst<R>(t: Table<R>, p: (Id, R) -> bool, created: R -> Time): (rs: seq<(Id, R)>)
    ensures Lists(t, p, rs)
    ensures forall i, j :: 0 <= i < j < |rs| ==> created(rs[i].1) <= created(rs[j].1)
  {
    var key := (e: (Id, R)) => created(e.1);
    var rs := SortBy(Rows(t, Select(t, p)), key);
    assert forall i, j :: 0 <= i < j < |rs| ==> key(rs[i]) <= key(rs[j]);
    ListsReordering(t, p, rs);
    rs
  }

  /** Two tables whose rows agree on `p` have the same first match. */
  lemma FindFirstAgree<R>(t: Table<R>, t': Table<R>, p: (Id, R) -> bool)
    requires t'.rows.Keys == t.rows.Keys
    requires forall k :: k in t.rows ==> p(k, t'.rows[k]) == p(k, t.rows[k])
    ensures FindFirst(t', p) == FindFirst(t, p)
  {
    var a, b := FindFirst(t, p), FindFirst(t', p);
    if a.Some? && b.Some? {
      assert !(a.value < b.value) && !(b.value < a.value);
    }
  }

  /**
   * `findFirst` with `orderBy: { createdAt: 'desc' }`: a matching row no
   * matching row is newer than, if any row matches.
   */
  function Latest<R>(t: Table<R>, p: (Id, R) -> bool, created: R -> Time): (r: Option<Id>)
    ensures r.Some? ==> r.value in t.rows && p(r.value, t.rows[r.value])
    ensures r.Some? ==> forall k :: k in t.rows && p(k, t.rows[k]) ==> created(t.rows[k]) <= created(t.rows[r.value])
    ensures r.None? <==> forall k :: k in t.rows ==> !p(k, t.rows[k])
  {
    var rs := NewestFirst(t, p, created);
    if |rs| == 0 then None
    else
      assert forall k :: k in t.rows && p(k, t.rows[k]) ==> created(t.rows[k]) <= created(rs[0].1) by {
        forall k | k in t.rows && p(k, t.rows[k]) ensures created(t.rows[k]) <= created(rs[0].1) {
          var j :| 0 <= j < |rs| && rs[j] == (k, t.rows[k]);
          assert j == 0 || created(rs[0].1) >= created(rs[j].1);
        }
      }
      Some(rs[0].0)
  }
}
