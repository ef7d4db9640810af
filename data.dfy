/**
 * The message store: the Room table `messages` behind MessageDao.
 *
 * A row is a MessageEntity; the table keeps its rows in storage order plus the
 * counter SQLite's AUTOINCREMENT draws fresh ids from. Timestamps are passed in
 * by the caller instead of being read from the clock.
 */
module Data {
  import opened Wrappers

  /** One stored chat turn; id 0 means "not yet assigned". */
  datatype MessageEntity = MessageEntity(id: int, role: string, content: string, timestamp: int)

  /** The default id of a new entity: the store assigns a fresh one on insert. */
  const UnsetId: int := 0

  /** The rows in storage order and the next id AUTOINCREMENT will hand out. */
  datatype Table = Table(rows: seq<MessageEntity>, nextId: int)

  const EmptyTable: Table := Table([], 1)

  /** Primary keys are unique, never the unset id, and all below the next fresh id. */
  predicate WellFormed(t: Table) {
    && t.nextId >= 1
    && (forall i :: 0 <= i < |t.rows| ==> t.rows[i].id != UnsetId && t.rows[i].id < t.nextId)
    && (forall i, j :: 0 <= i < j < |t.rows| ==> t.rows[i].id != t.rows[j].id)
  }

  function Max(a: int, b: int): int {
    if a < b then b else a
  }

  /** The position of the row with primary key id, if there is one. */
  function IndexOfId(rows: seq<MessageEntity>, id: int): (r: Option<nat>)
    ensures r.Some? ==> r.value < |rows| && rows[r.value].id == id
    ensures r.None? ==> forall i :: 0 <= i < |rows| ==> rows[i].id != id
  {
    if rows == [] then None
    else if rows[0].id == id then Some(0)
    else match IndexOfId(rows[1..], id)
      case None => None
      case Some(k) => Some(k + 1)
  }

  /**
   * insert with OnConflictStrategy.REPLACE. An entity with the unset id is
   * appended under the next fresh id. An entity whose id is already a key
   * replaces that row. Any other entity is appended under its own id, and the
   * counter moves past it so that id is never handed out later.
   */
  function Inserted(t: Table, e: MessageEntity): (r: Table)
    ensures StoredRow(t, e) in r.rows
    ensures |t.rows| <= |r.rows| <= |t.rows| + 1
    ensures r.nextId >= t.nextId
    ensures e.id != UnsetId ==> r.nextId > e.id
  {
    if e.id == UnsetId then
      Table(t.rows + [e.(id := t.nextId)], t.nextId + 1)
    else
      match IndexOfId(t.rows, e.id)
      case Some(k) =>
        assert t.rows[k := e][k] == e;
        Table(t.rows[k := e], Max(t.nextId, e.id + 1))
      case None => Table(t.rows + [e], Max(t.nextId, e.id + 1))
  }

  /** The row an insert leaves behind: the entity itself, under a fresh id when it had none. */
  function StoredRow(t: Table, e: MessageEntity): MessageEntity {
    if e.id == UnsetId then e.(id := t.nextId) else e
  }

  /** Insertion keeps the keys unique and the counter ahead of every key. */
  lemma InsertedWellFormed(t: Table, e: MessageEntity)
    requires WellFormed(t)
    ensures WellFormed(Inserted(t, e))
  {
    var r := Inserted(t, e);
    if e.id != UnsetId && IndexOfId(t.rows, e.id).Some? {
      var k := IndexOfId(t.rows, e.id).value;
      forall i, j | 0 <= i < j < |r.rows| ensures r.rows[i].id != r.rows[j].id {
        if i != k && j != k {
          assert r.rows[i] == t.rows[i] && r.rows[j] == t.rows[j];
        }
      }
    }
  }

  /** An entity with the unset id adds exactly one row, under an id no row had, and nothing else changes. */
  lemma InsertUnsetIdAppends(t: Table, e: MessageEntity)
    requires WellFormed(t) && e.id == UnsetId
    ensures var r := Inserted(t, e);
      && |r.rows| == |t.rows| + 1
      && r.rows[..|t.rows|] == t.rows
      && r.rows[|t.rows|] == MessageEntity(t.nextId, e.role, e.content, e.timestamp)
      && r.rows[|t.rows|].id != UnsetId
      && (forall i :: 0 <= i < |t.rows| ==> t.rows[i].id != r.rows[|t.rows|].id)
  {
    var r := Inserted(t, e);
    assert r.rows[..|t.rows|] == t.rows;
  }

  /** An entity whose id is already a key replaces that row in place: same count, other rows untouched. */
  lemma InsertExistingIdReplaces(t: Table, e: MessageEntity, k: int)
    requires e.id != UnsetId && 0 <= k < |t.rows| && t.rows[k].id == e.id
    requires WellFormed(t)
    ensures var r := Inserted(t, e);
      && |r.rows| == |t.rows|
      && r.rows[k] == e
      && (forall i :: 0 <= i < |t.rows| && i != k ==> r.rows[i] == t.rows[i])
  {
    var found := IndexOfId(t.rows, e.id);
    assert found.Some? && found.value == k;
  }

  /** An entity with an explicit id that is not yet a key is appended under that id. */
  lemma InsertNewIdAppends(t: Table, e: MessageEntity)
    requires e.id != UnsetId && forall i :: 0 <= i < |t.rows| ==> t.rows[i].id != e.id
    ensures var r := Inserted(t, e);
      && r.rows == t.rows + [e]
      && r.nextId > e.id && r.nextId >= t.nextId
  {
  }

  /** After an insert, looking up the stored row's key finds exactly the stored row. */
  lemma InsertedLookup(t: Table, e: MessageEntity)
    requires WellFormed(t)
    ensures var r := Inserted(t, e); var row := StoredRow(t, e);
      var found := IndexOfId(r.rows, row.id);
      found.Some? && r.rows[found.value] == row
  {
    InsertedWellFormed(t, e);
    var r := Inserted(t, e);
    var row := StoredRow(t, e);
    var p: nat :| p < |r.rows| && r.rows[p] == row by {
      if e.id == UnsetId || IndexOfId(t.rows, e.id).None? {
        assert r.rows[|r.rows| - 1] == row;
      } else {
        assert r.rows[IndexOfId(t.rows, e.id).value] == row;
      }
    }
    var found := IndexOfId(r.rows, row.id);
    assert found.Some? && found.value == p;
  }

  // ---------------------------------------------------------------------------
  // ORDER BY timestamp ASC
  // ---------------------------------------------------------------------------

  predicate SortedByTimestamp(s: seq<MessageEntity>) {
    forall i, j :: 0 <= i < j < |s| ==> s[i].timestamp <= s[j].timestamp
  }

  /** No two rows share a timestamp unless they are the same row. */
  predicate TimestampsDistinct(s: seq<MessageEntity>) {
    forall x, y :: x in s && y in s && x.timestamp == y.timestamp ==> x == y
  }

  /** Reordering rows keeps their timestamps distinct. */
  lemma PermutationKeepsDistinct(a: seq<MessageEntity>, b: seq<MessageEntity>)
    requires multiset(a) == multiset(b) && TimestampsDistinct(a)
    ensures TimestampsDistinct(b)
  {
    forall x | x in b ensures x in a {
      assert x in multiset(b);
    }
  }

  /** Inserts e into a sorted sequence after every row whose timestamp is not later than e's. */
  function InsertByTimestamp(sorted: seq<MessageEntity>, e: MessageEntity): (r: seq<MessageEntity>)
    requires SortedByTimestamp(sorted)
    ensures SortedByTimestamp(r)
    ensures multiset(r) == multiset(sorted) + multiset{e}
  {
    if sorted == [] || sorted[|sorted| - 1].timestamp <= e.timestamp then
      AppendLatestSorted(sorted, e);
      sorted + [e]
    else
      var p := InsertByTimestamp(sorted[..|sorted| - 1], e);
      InsertStep(sorted, e, p);
      p + [sorted[|sorted| - 1]]
  }

  /** Appending a row no earlier than every row keeps a sequence sorted. */
  lemma AppendLatestSorted(s: seq<MessageEntity>, e: MessageEntity)
    requires SortedByTimestamp(s)
    requires forall x :: x in multiset(s) ==> x.timestamp <= e.timestamp
    ensures SortedByTimestamp(s + [e])
  {
    forall i, j | 0 <= i < j < |s| + 1 ensures (s + [e])[i].timestamp <= (s + [e])[j].timestamp {
      if j == |s| {
        assert (s + [e])[i] == s[i] && s[i] in multiset(s);
      }
    }
  }

  /** The recursive step of InsertByTimestamp: the last row goes back on after e has been placed before it. */
  lemma InsertStep(sorted: seq<MessageEntity>, e: MessageEntity, p: seq<MessageEntity>)
    requires SortedByTimestamp(sorted) && sorted != [] && e.timestamp < sorted[|sorted| - 1].timestamp
    requires SortedByTimestamp(p) && multiset(p) == multiset(sorted[..|sorted| - 1]) + multiset{e}
    ensures SortedByTimestamp(p + [sorted[|sorted| - 1]])
    ensures multiset(p + [sorted[|sorted| - 1]]) == multiset(sorted) + multiset{e}
  {
    var init, last := sorted[..|sorted| - 1], sorted[|sorted| - 1];
    assert sorted == init + [last];
    forall x | x in multiset(p) ensures x.timestamp <= last.timestamp {
      if x != e {
        assert x in multiset(init);
        var k :| 0 <= k < |init| && init[k] == x;
        assert sorted[k] == x;
      }
    }
    AppendLatestSorted(p, last);
  }

  /**
   * A reference ordering for getAll: sorted by timestamp, rows with equal
   * timestamps kept in storage order. SQL leaves the order of such ties open,
   * so the store only promises the properties of SortedByTimestamp and permutation.
   */
  function SortByTimestamp(rows: seq<MessageEntity>): (r: seq<MessageEntity>)
    ensures SortedByTimestamp(r)
    ensures multiset(r) == multiset(rows)
  {
    if rows == [] then []
    else
      assert rows == rows[..|rows| - 1] + [rows[|rows| - 1]];
      InsertByTimestamp(SortByTimestamp(rows[..|rows| - 1]), rows[|rows| - 1])
  }

  /** A row no earlier than every stored row comes out last, after the others in their old order. */
  lemma {:induction false} SortAppendLatest(rows: seq<MessageEntity>, e: MessageEntity)
    requires forall i :: 0 <= i < |rows| ==> rows[i].timestamp <= e.timestamp
    ensures SortByTimestamp(rows + [e]) == SortByTimestamp(rows) + [e]
  {
    var s := SortByTimestamp(rows);
    assert (rows + [e])[..|rows|] == rows;
    if s != [] {
      var last := s[|s| - 1];
      assert last in multiset(rows);
    }
  }

  /** In a sorted sequence no row has a later timestamp than the last one. */
  lemma LastIsLatest(s: seq<MessageEntity>, x: MessageEntity)
    requires SortedByTimestamp(s) && x in multiset(s)
    ensures x.timestamp <= s[|s| - 1].timestamp
  {
    var k :| 0 <= k < |s| && s[k] == x;
  }

  lemma DropLastSameMultiset(a: seq<MessageEntity>, b: seq<MessageEntity>)
    requires a != [] && |a| == |b| && a[|a| - 1] == b[|b| - 1] && multiset(a) == multiset(b)
    ensures multiset(a[..|a| - 1]) == multiset(b[..|b| - 1])
  {
    var x := a[|a| - 1];
    assert a == a[..|a| - 1] + [x];
    assert b == b[..|b| - 1] + [x];
    calc {
      multiset(a[..|a| - 1]);
      multiset(a) - multiset{x};
      multiset(b) - multiset{x};
      multiset(b[..|b| - 1]);
    }
  }

  lemma DistinctPrefix(a: seq<MessageEntity>, n: nat)
    requires n <= |a| && TimestampsDistinct(a)
    ensures TimestampsDistinct(a[..n])
  {
    forall u, v | u in a[..n] && v in a[..n] && u.timestamp == v.timestamp ensures u == v {
      assert u in a && v in a;
    }
  }

  /** When timestamps are distinct, a sorted permutation is unique: any ordering getAll may return is this one. */
  lemma {:induction false} SortedPermutationUnique(a: seq<MessageEntity>, b: seq<MessageEntity>)
    requires SortedByTimestamp(a) && SortedByTimestamp(b)
    requires multiset(a) == multiset(b)
    requires TimestampsDistinct(a)
    ensures a == b
  {
    SameLength(a, b);
    if a != [] {
      var n := |a| - 1;
      SameLast(a, b);
      DropLastSameMultiset(a, b);
      DistinctPrefix(a, n);
      SortedPrefix(a, n);
      SortedPrefix(b, n);
      SortedPermutationUnique(a[..n], b[..n]);
      PrefixAndLast(a, b);
    }
  }

  lemma SameLength(a: seq<MessageEntity>, b: seq<MessageEntity>)
    requires multiset(a) == multiset(b)
    ensures |a| == |b|
  {
    assert |a| == |multiset(a)| == |b|;
  }

  lemma PrefixAndLast(a: seq<MessageEntity>, b: seq<MessageEntity>)
    requires a != [] && |a| == |b| && a[..|a| - 1] == b[..|b| - 1] && a[|a| - 1] == b[|b| - 1]
    ensures a == b
  {
    assert a == a[..|a| - 1] + [a[|a| - 1]] && b == b[..|b| - 1] + [b[|b| - 1]];
  }

  /** Two sorted permutations with distinct timestamps end in the same row. */
  lemma SameLast(a: seq<MessageEntity>, b: seq<MessageEntity>)
    requires a != [] && |a| == |b|
    requires SortedByTimestamp(a) && SortedByTimestamp(b)
    requires multiset(a) == multiset(b) && TimestampsDistinct(a)
    ensures a[|a| - 1] == b[|b| - 1]
  {
    var x, y := a[|a| - 1], b[|b| - 1];
    assert x in multiset(b) && y in multiset(a);
    LastIsLatest(b, x);
    LastIsLatest(a, y);
    assert x in a && y in a;
  }

  lemma SortedPrefix(s: seq<MessageEntity>, n: nat)
    requires n <= |s| && SortedByTimestamp(s)
    ensures SortedByTimestamp(s[..n])
  {
  }

  // ---------------------------------------------------------------------------
  // The DAO
  // ---------------------------------------------------------------------------

  /** MessageDao over an in-memory table. */
  class MessageDao {
    var rows: seq<MessageEntity>
    var nextId: int

    function Contents(): Table
      reads this
    {
      Table(rows, nextId)
    }

    ghost predicate Valid()
      reads this
    {
      WellFormed(Contents())
    }

    /** A new, empty table whose first fresh id is 1. */
    constructor ()
      ensures Contents() == EmptyTable && Valid()
    {
      rows := [];
      nextId := 1;
    }

    /** insert(message), replacing the row with the same primary key. */
    method Insert(e: MessageEntity)
      requires Valid()
      modifies this
      ensures Contents() == Inserted(old(Contents()), e)
      ensures Valid()
    {
      InsertedWellFormed(Contents(), e);
      var t := Inserted(Contents(), e);
      rows, nextId := t.rows, t.nextId;
    }

    /** getAll(): every row, nothing added or dropped, in ascending timestamp order. */
    method GetAll() returns (r: seq<MessageEntity>)
      ensures SortedByTimestamp(r)
      ensures multiset(r) == multiset(rows)
    {
      r := SortByTimestamp(rows);
    }

    /** clearAll(): deletes every row; AUTOINCREMENT does not reuse the ids handed out before. */
    method ClearAll()
      requires Valid()
      modifies this
      ensures rows == [] && nextId == old(nextId)
      ensures Valid()
    {
      rows := [];
    }
  }

  /** Reading an emptied table yields the empty list. */
  lemma ClearedReadsEmpty(r: seq<MessageEntity>)
    requires SortedByTimestamp(r) && multiset(r) == multiset{}
    ensures r == []
  {
    assert |r| == |multiset(r)|;
  }
}
