/** Lists of rows that carry an id, as the server's state vectors hold them:
    first-match lookup, retain/extend, and the stable sort of the standard library. */
module Rows {

  type Uuid = nat

  datatype Option<+T> = None | Some(value: T)

  datatype Row<+T> = Row(id: Uuid, data: T)

  /** `iter().find(|r| r.id == id)`: the first row with this id. */
  function Find<T(!new)>(rows: seq<Row<T>>, id: Uuid): (r: Option<Row<T>>)
    ensures r.Some? ==> r.value in rows && r.value.id == id
    ensures r.None? ==> forall row | row in rows :: row.id != id
  {
    if rows == [] then None
    else if rows[0].id == id then Some(rows[0])
    else Find(rows[1..], id)
  }

  function Ids<T(==, !new)>(rows: seq<Row<T>>): set<Uuid> {
    set row | row in rows :: row.id
  }

  ghost predicate UniqueIds<T(!new)>(rows: seq<Row<T>>) {
    forall i, j | 0 <= i < j < |rows| :: rows[i].id != rows[j].id
  }

  /** The rows whose membership in `ids` is `inside`, in their old order. */
  function Keep<T(!new)>(rows: seq<Row<T>>, ids: set<Uuid>, inside: bool): (r: seq<Row<T>>)
    ensures forall row :: row in r <==> row in rows && (row.id in ids <==> inside)
    ensures |r| <= |rows|
  {
    if rows == [] then []
    else if (rows[0].id in ids) == inside then [rows[0]] + Keep(rows[1..], ids, inside)
    else Keep(rows[1..], ids, inside)
  }

  /** `retain` the untouched rows of `current`, then `extend` by the touched rows of `before`. */
  function Overlay<T(!new)>(current: seq<Row<T>>, before: seq<Row<T>>, ids: set<Uuid>): seq<Row<T>> {
    Keep(current, ids, false) + Keep(before, ids, true)
  }

  type Order<!T> = (Row<T>, Row<T>) -> bool

  /** A comparison that is total and transitive and ties only rows with one id. */
  ghost predicate IsOrder<T(!new)>(le: Order<T>) {
    && (forall a, b :: le(a, b) || le(b, a))
    && (forall a, b, c :: le(a, b) && le(b, c) ==> le(a, c))
    && (forall a, b :: le(a, b) && le(b, a) ==> a.id == b.id)
  }

  ghost predicate Sorted<T(!new)>(rows: seq<Row<T>>, le: Order<T>) {
    forall i, j | 0 <= i < j < |rows| :: le(rows[i], rows[j])
  }

  function Insert<T(!new)>(row: Row<T>, rows: seq<Row<T>>, le: Order<T>): seq<Row<T>> {
    if rows == [] || le(row, rows[0]) then [row] + rows
    else [rows[0]] + Insert(row, rows[1..], le)
  }

  /** `sort_by`: stable, because a row is inserted before the later rows it ties with. */
  function Sort<T(!new)>(rows: seq<Row<T>>, le: Order<T>): seq<Row<T>> {
    if rows == [] then [] else Insert(rows[0], Sort(rows[1..], le), le)
  }

  // ---- counting ----

  lemma Without<T>(s: seq<T>, i: nat)
    requires i < |s|
    ensures multiset(s) == multiset(s[..i] + s[i + 1..]) + multiset{s[i]}
  {
    assert s == s[..i] + [s[i]] + s[i + 1..];
  }

  lemma Cancel<T>(a: multiset<T>, b: multiset<T>, c: multiset<T>)
    requires a + c == b + c
    ensures a == b
  {
    assert a == (a + c) - c && b == (b + c) - c;
  }

  // ---- lookups ----

  lemma {:induction false} FindMember<T(!new)>(rows: seq<Row<T>>, row: Row<T>)
    requires UniqueIds(rows) && row in rows
    ensures Find(rows, row.id) == Some(row)
  {
    var f := Find(rows, row.id);
    var i :| 0 <= i < |rows| && rows[i] == row;
    var j :| 0 <= j < |rows| && rows[j] == f.value;
    assert i == j;
  }

  lemma {:induction false} FindAppend<T(!new)>(a: seq<Row<T>>, b: seq<Row<T>>, id: Uuid)
    ensures Find(a + b, id) == if Find(a, id).Some? then Find(a, id) else Find(b, id)
  {
    if a == [] {
      assert a + b == b;
    } else {
      assert (a + b)[1..] == a[1..] + b;
      FindAppend(a[1..], b, id);
    }
  }

  lemma {:induction false} FindKeep<T(!new)>(rows: seq<Row<T>>, ids: set<Uuid>, inside: bool, id: Uuid)
    ensures Find(Keep(rows, ids, inside), id) == if (id in ids) == inside then Find(rows, id) else None
  {
    if rows == [] {
    } else {
      FindKeep(rows[1..], ids, inside, id);
      if (rows[0].id in ids) == inside {
        assert Keep(rows, ids, inside)[1..] == Keep(rows[1..], ids, inside);
      }
    }
  }

  lemma {:induction false} KeepUnique<T(!new)>(rows: seq<Row<T>>, ids: set<Uuid>, inside: bool)
    requires UniqueIds(rows)
    ensures UniqueIds(Keep(rows, ids, inside))
  {
    if rows == [] {
    } else {
      KeepUnique(rows[1..], ids, inside);
      var tail := Keep(rows[1..], ids, inside);
      forall row | row in tail ensures row.id != rows[0].id {
        assert row in rows[1..];
      }
    }
  }

  /** An overlay answers every lookup from exactly one of its two sources. */
  lemma {:induction false} OverlayLookup<T(!new)>(current: seq<Row<T>>, before: seq<Row<T>>, ids: set<Uuid>, id: Uuid)
    ensures Find(Overlay(current, before, ids), id) == if id in ids then Find(before, id) else Find(current, id)
  {
    FindAppend(Keep(current, ids, false), Keep(before, ids, true), id);
    FindKeep(current, ids, false, id);
    FindKeep(before, ids, true, id);
  }

  lemma OverlayUnique<T(!new)>(current: seq<Row<T>>, before: seq<Row<T>>, ids: set<Uuid>)
    requires UniqueIds(current) && UniqueIds(before)
    ensures UniqueIds(Overlay(current, before, ids))
  {
    var a, b := Keep(current, ids, false), Keep(before, ids, true);
    KeepUnique(current, ids, false);
    KeepUnique(before, ids, true);
    forall i, j | 0 <= i < |a| && 0 <= j < |b| ensures a[i].id != b[j].id {
      assert a[i] in a && b[j] in b;
    }
  }

  // ---- sorting ----

  lemma HeadIsLeast<T(!new)>(row: Row<T>, rows: seq<Row<T>>, le: Order<T>)
    requires IsOrder(le) && Sorted(rows, le) && (rows == [] || le(row, rows[0]))
    ensures Sorted([row] + rows, le)
  {
    forall j | 0 <= j < |rows| ensures le(row, rows[j]) {
      if j > 0 { assert le(rows[0], rows[j]); }
    }
  }

  lemma {:induction false} InsertSorted<T(!new)>(row: Row<T>, rows: seq<Row<T>>, le: Order<T>)
    requires IsOrder(le) && Sorted(rows, le)
    ensures Sorted(Insert(row, rows, le), le)
    ensures multiset(Insert(row, rows, le)) == multiset{row} + multiset(rows)
  {
    if rows == [] || le(row, rows[0]) {
      HeadIsLeast(row, rows, le);
    } else {
      var tail := Insert(row, rows[1..], le);
      InsertSorted(row, rows[1..], le);
      assert rows == [rows[0]] + rows[1..];
      assert tail[0] in multiset(tail);
      if tail[0] != row {
        assert tail[0] in rows[1..];
      }
      HeadIsLeast(rows[0], tail, le);
    }
  }

  lemma {:induction false} SortSorted<T(!new)>(rows: seq<Row<T>>, le: Order<T>)
    requires IsOrder(le)
    ensures Sorted(Sort(rows, le), le)
    ensures multiset(Sort(rows, le)) == multiset(rows)
  {
    if rows == [] {
    } else {
      SortSorted(rows[1..], le);
      InsertSorted(rows[0], Sort(rows[1..], le), le);
      assert rows == [rows[0]] + rows[1..];
    }
  }

  lemma UniqueAsCounts<T(!new)>(rows: seq<Row<T>>)
    requires UniqueIds(rows)
    ensures forall row | row in rows :: multiset(rows)[row] == 1
  {
    forall row | row in rows ensures multiset(rows)[row] == 1 {
      var i :| 0 <= i < |rows| && rows[i] == row;
      assert rows == rows[..i] + [row] + rows[i + 1..];
      assert row !in rows[..i] && row !in rows[i + 1..];
    }
  }

  /** A rearrangement of rows with distinct ids keeps them distinct and keeps every lookup. */
  lemma {:induction false} PermutedLookups<T(!new)>(a: seq<Row<T>>, b: seq<Row<T>>)
    requires UniqueIds(a) && multiset(a) == multiset(b)
    ensures UniqueIds(b)
    ensures forall id :: Find(b, id) == Find(a, id)
  {
    forall i, j | 0 <= i < j < |b| ensures b[i].id != b[j].id {
      assert b == b[..i] + [b[i]] + b[i + 1..j] + [b[j]] + b[j + 1..];
      assert b[i] == b[j] ==> multiset(b)[b[i]] >= 2;
      assert b[i] in multiset(a) && b[j] in multiset(a);
      FindMember(a, b[i]);
      FindMember(a, b[j]);
      UniqueAsCounts(a);
    }
    forall id ensures Find(b, id) == Find(a, id) {
      assert forall row :: row in a <==> row in multiset(b);
      if Find(b, id).Some? {
        FindMember(a, Find(b, id).value);
      }
    }
  }

  lemma {:induction false} SortLookups<T(!new)>(rows: seq<Row<T>>, le: Order<T>)
    requires IsOrder(le) && UniqueIds(rows)
    ensures UniqueIds(Sort(rows, le)) && Sorted(Sort(rows, le), le)
    ensures forall id :: Find(Sort(rows, le), id) == Find(rows, id)
  {
    SortSorted(rows, le);
    PermutedLookups(rows, Sort(rows, le));
  }

  lemma {:induction false} FindTail<T(!new)>(rows: seq<Row<T>>, id: Uuid)
    requires UniqueIds(rows) && rows != []
    ensures Find(rows[1..], id) == if id == rows[0].id then None else Find(rows, id)
  {
    assert forall row | row in rows[1..] :: row.id != rows[0].id;
  }

  /** Lookups determine a sorted list of rows with distinct ids, order included. */
  lemma {:induction false} SortedByLookups<T(!new)>(a: seq<Row<T>>, b: seq<Row<T>>, le: Order<T>)
    requires IsOrder(le) && UniqueIds(a) && UniqueIds(b) && Sorted(a, le) && Sorted(b, le)
    requires forall id :: Find(a, id) == Find(b, id)
    ensures a == b
    decreases |a|
  {
    if a == [] {
      assert b != [] ==> Find(a, b[0].id) == Find(b, b[0].id);
    } else {
      assert Find(a, a[0].id) == Some(a[0]) == Find(b, a[0].id);
      assert b != [];
      assert Find(b, b[0].id) == Some(b[0]) == Find(a, b[0].id);
      var i :| 0 <= i < |b| && b[i] == a[0];
      var j :| 0 <= j < |a| && a[j] == b[0];
      assert le(a[0], a[j]) && le(b[0], b[i]);
      assert a[0] == b[0];
      forall id ensures Find(a[1..], id) == Find(b[1..], id) {
        FindTail(a, id);
        FindTail(b, id);
      }
      SortedByLookups(a[1..], b[1..], le);
      assert a == [a[0]] + a[1..] && b == [b[0]] + b[1..];
    }
  }
}
