/**
 * The store of sensor readings (the `logdata` table) and the queries over it: the oldest
 * unsynced readings, their count, the latest reading, insertion with generated keys, updates
 * and deletions by key.
 */
module LogStore {
  import opened Wrappers
  import Seqs

  /** A row of `logdata`; `id` is the generated primary key. */
  datatype LogData = LogData(
    id: int,
    timestamp: int,
    sensorName: string,
    synced: bool,
    data: string,
    hasFile: bool,
    filePath: string,
    localId: string)

  function TimestampOf(r: LogData): int
  {
    r.timestamp
  }

  /** `synced = FALSE` */
  function IsUnsynced(): LogData -> bool
  {
    (r: LogData) => !r.synced
  }

  /** `synced = FALSE AND timestamp <= :cutoffTimestamp` */
  function UnsyncedBefore(cutoff: int): LogData -> bool
  {
    (r: LogData) => !r.synced && r.timestamp <= cutoff
  }

  /** SQL `LIMIT n`: the first n rows; a negative limit means no limit. */
  function Limit<T>(xs: seq<T>, n: int): (r: seq<T>)
    ensures n < 0 ==> r == xs
    ensures n >= 0 ==> |r| == if n < |xs| then n else |xs|
    ensures r == xs[..|r|]
  {
    if n < 0 || n >= |xs| then xs else xs[..n]
  }

  /** `SELECT * ... WHERE p ORDER BY timestamp ASC LIMIT n`, rows of equal timestamp in table order. */
  function Oldest(rows: seq<LogData>, n: int, p: LogData -> bool): seq<LogData>
  {
    Limit(Seqs.SortBy(Seqs.Filter(rows, p), TimestampOf), n)
  }

  /** `getNextNUnsyncedBefore` */
  function NextNUnsyncedBefore(rows: seq<LogData>, n: int, cutoff: int): seq<LogData>
  {
    Oldest(rows, n, UnsyncedBefore(cutoff))
  }

  /** `getNextNUnsynced`, the same query without a cutoff (the query the upload worker uses). */
  function NextNUnsynced(rows: seq<LogData>, n: int): seq<LogData>
  {
    Oldest(rows, n, IsUnsynced())
  }

  /** `SELECT COUNT(*) ... WHERE p` */
  function CountWhere(rows: seq<LogData>, p: LogData -> bool): nat
  {
    |Seqs.Filter(rows, p)|
  }

  /**
   * The query returns rows of the table that pass the test, in ascending timestamp order, at
   * most n of them (all of them for a negative n) and as many as the count of the same test
   * allows.
   */
  lemma OldestSpec(rows: seq<LogData>, n: int, p: LogData -> bool)
    ensures var r := Oldest(rows, n, p);
            && (forall i :: 0 <= i < |r| ==> r[i] in rows && p(r[i]))
            && Seqs.SortedBy(r, TimestampOf)
            && |r| == (if n < 0 || CountWhere(rows, p) <= n then CountWhere(rows, p) else n)
            && multiset(r) <= multiset(Seqs.Filter(rows, p))
  {
    var all := Seqs.Filter(rows, p);
    var sorted := Seqs.SortBy(all, TimestampOf);
    Seqs.SortBySorted(all, TimestampOf);
    Seqs.SortByPermutes(all, TimestampOf);
    var r := Limit(sorted, n);
    assert |sorted| == |all| by {
      assert |multiset(sorted)| == |multiset(all)|;
    }
    assert sorted == r + sorted[|r|..];
    assert multiset(sorted) == multiset(r) + multiset(sorted[|r|..]);
    forall i | 0 <= i < |r| ensures r[i] in rows && p(r[i]) {
      assert r[i] == sorted[i];
      assert r[i] in multiset(all);
    }
  }

  /** No row that passes the test and is left out by the limit is older than a row returned. */
  lemma OldestAreEarliest(rows: seq<LogData>, n: int, p: LogData -> bool)
    ensures var r := Oldest(rows, n, p);
            forall y :: y in multiset(Seqs.Filter(rows, p)) - multiset(r) ==>
              forall i :: 0 <= i < |r| ==> r[i].timestamp <= y.timestamp
  {
    var all := Seqs.Filter(rows, p);
    var sorted := Seqs.SortBy(all, TimestampOf);
    Seqs.SortBySorted(all, TimestampOf);
    Seqs.SortByPermutes(all, TimestampOf);
    var r := Limit(sorted, n);
    Seqs.SortedPrefixFirst(all, sorted, TimestampOf, |r|);
    assert r == sorted[..|r|];
  }

  /** `lastItem`: a row with the greatest timestamp, None for an empty table. */
  function LastItem(rows: seq<LogData>): (r: Option<LogData>)
    ensures r.None? <==> |rows| == 0
    ensures r.Some? ==> r.value in rows && forall i :: 0 <= i < |rows| ==> rows[i].timestamp <= r.value.timestamp
  {
    Seqs.MaxBy(rows, TimestampOf)
  }

  /** The keys of a batch of rows. */
  function IdsOf(batch: seq<LogData>): set<int>
  {
    set i | 0 <= i < |batch| :: batch[i].id
  }

  function KeyNotIn(ids: set<int>): LogData -> bool
  {
    (r: LogData) => r.id !in ids
  }

  /** `deleteLogData`: the table without the rows whose key is a key of the batch. */
  function DeleteIds(rows: seq<LogData>, batch: seq<LogData>): seq<LogData>
  {
    Seqs.Filter(rows, KeyNotIn(IdsOf(batch)))
  }

  /** Deleting a non-empty batch of rows of the table removes at least one row. */
  lemma DeleteShrinks(rows: seq<LogData>, batch: seq<LogData>)
    requires |batch| > 0 && batch[0] in rows
    ensures |DeleteIds(rows, batch)| < |rows|
  {
    var i :| 0 <= i < |rows| && rows[i] == batch[0];
    Seqs.FilterShrinks(rows, KeyNotIn(IdsOf(batch)), i);
  }

  function KeyIn(ids: set<int>): LogData -> bool
  {
    (r: LogData) => r.id in ids
  }

  function UnsyncedIn(ids: set<int>): LogData -> bool
  {
    (r: LogData) => !r.synced && r.id in ids
  }

  function UnsyncedNotIn(ids: set<int>): LogData -> bool
  {
    (r: LogData) => !r.synced && r.id !in ids
  }

  /**
   * Deleting a batch of unsynced rows of the table takes at least the batch's size off the
   * unsynced count.
   */
  lemma DeleteLowersUnsyncedCount(rows: seq<LogData>, batch: seq<LogData>)
    requires multiset(batch) <= multiset(Seqs.Filter(rows, IsUnsynced()))
    ensures CountWhere(DeleteIds(rows, batch), IsUnsynced()) + |batch| <= CountWhere(rows, IsUnsynced())
  {
    var ids := IdsOf(batch);
    Seqs.FilterFilter(rows, IsUnsynced(), KeyNotIn(ids), UnsyncedNotIn(ids));
    Seqs.FilterSplit(rows, IsUnsynced(), KeyIn(ids), UnsyncedIn(ids), UnsyncedNotIn(ids));
    var all := multiset(Seqs.Filter(rows, IsUnsynced()));
    var inBatch := multiset(Seqs.Filter(rows, UnsyncedIn(ids)));
    var outside := multiset(Seqs.Filter(rows, UnsyncedNotIn(ids)));
    assert multiset(batch) <= inBatch by {
      forall x | x in multiset(batch) ensures multiset(batch)[x] <= inBatch[x] {
        var i :| 0 <= i < |batch| && batch[i] == x;
        assert x.id in ids;
        assert x !in outside;
      }
    }
    assert inBatch == multiset(batch) + (inBatch - multiset(batch));
  }

  /** Rows handed to `insertAll` with no key get the next keys, in order. */
  function Numbered(items: seq<LogData>, first: int): (r: seq<LogData>)
    ensures |r| == |items|
    ensures forall i :: 0 <= i < |r| ==> r[i] == items[i].(id := first + i)
  {
    seq(|items|, i requires 0 <= i < |items| => items[i].(id := first + i))
  }

  /** `updateLogData` for one row: the row with the same key is replaced. */
  function UpdateOne(rows: seq<LogData>, item: LogData): (r: seq<LogData>)
    ensures |r| == |rows|
    ensures forall i :: 0 <= i < |r| ==> r[i] == if rows[i].id == item.id then item else rows[i]
  {
    seq(|rows|, i requires 0 <= i < |rows| => if rows[i].id == item.id then item else rows[i])
  }

  /** `updateLogData` for a batch, one row after the other. */
  function UpdateAll(rows: seq<LogData>, items: seq<LogData>): seq<LogData>
  {
    if |items| == 0 then rows else UpdateOne(UpdateAll(rows, items[..|items| - 1]), items[|items| - 1])
  }

  /** An update keeps the keys of the table in place, and leaves a row no item names as it was. */
  lemma {:induction false} UpdateKeepsKeys(rows: seq<LogData>, items: seq<LogData>)
    ensures var r := UpdateAll(rows, items);
            |r| == |rows|
            && (forall i :: 0 <= i < |r| ==> r[i].id == rows[i].id)
            && (forall i :: 0 <= i < |r| && rows[i].id !in IdsOf(items) ==> r[i] == rows[i])
  {
    if |items| > 0 {
      var init := items[..|items| - 1];
      UpdateKeepsKeys(rows, init);
      assert IdsOf(init) <= IdsOf(items) by {
        forall k | k in IdsOf(init) ensures k in IdsOf(items) {
          var j :| 0 <= j < |init| && init[j].id == k;
          assert items[j] == init[j];
        }
      }
      assert items[|items| - 1].id in IdsOf(items);
    }
  }

  /** Generated keys are distinct and never above the last generated key. */
  ghost predicate KeysGenerated(rows: seq<LogData>, lastId: int)
  {
    && (forall i, j :: 0 <= i < j < |rows| ==> rows[i].id != rows[j].id)
    && (forall i :: 0 <= i < |rows| ==> rows[i].id <= lastId)
  }

  /** Removing rows keeps the remaining keys distinct and generated. */
  lemma {:induction false} FilterKeepsKeysGenerated(rows: seq<LogData>, p: LogData -> bool, lastId: int)
    requires KeysGenerated(rows, lastId)
    ensures KeysGenerated(Seqs.Filter(rows, p), lastId)
  {
    if |rows| > 0 {
      var tail := rows[1..];
      assert KeysGenerated(tail, lastId) by {
        assert forall i :: 0 <= i < |tail| ==> tail[i] == rows[i + 1];
      }
      FilterKeepsKeysGenerated(tail, p, lastId);
      var rest := Seqs.Filter(tail, p);
      assert forall j :: 0 <= j < |rest| ==> rest[j].id != rows[0].id by {
        forall j | 0 <= j < |rest| ensures rest[j].id != rows[0].id {
          var k :| 0 <= k < |tail| && tail[k] == rest[j];
          assert tail[k] == rows[k + 1];
        }
      }
      if p(rows[0]) {
        var r := [rows[0]] + rest;
        forall i, j | 0 <= i < j < |r| ensures r[i].id != r[j].id {
          assert r[j] == rest[j - 1];
          if i > 0 {
            assert r[i] == rest[i - 1];
          }
        }
      }
    }
  }

  /** The `logdata` table behind the DAO. */
  class LogDataDao {
    var rows: seq<LogData>
    var lastId: int

    constructor ()
      ensures rows == [] && lastId == 0
    {
      rows := [];
      lastId := 0;
    }

    /** `all` */
    function All(): seq<LogData>
      reads this
    {
      rows
    }

    /** `insertAll`: the rows, each given the next generated key, follow the existing rows. */
    method InsertAll(items: seq<LogData>)
      requires KeysGenerated(rows, lastId)
      modifies this
      ensures rows == old(rows) + Numbered(items, old(lastId) + 1)
      ensures lastId == old(lastId) + |items|
      ensures KeysGenerated(rows, lastId)
    {
      rows := rows + Numbered(items, lastId + 1);
      lastId := lastId + |items|;
    }

    function GetNextNUnsyncedBefore(n: int, cutoff: int): seq<LogData>
      reads this
    {
      NextNUnsyncedBefore(rows, n, cutoff)
    }

    function GetNextNUnsynced(n: int): seq<LogData>
      reads this
    {
      NextNUnsynced(rows, n)
    }

    /** `unsyncedCount` */
    function UnsyncedCount(): nat
      reads this
    {
      CountWhere(rows, IsUnsynced())
    }

    /** `getUnsyncedCountBefore` */
    function GetUnsyncedCountBefore(cutoff: int): nat
      reads this
    {
      CountWhere(rows, UnsyncedBefore(cutoff))
    }

    function GetLastItem(): Option<LogData>
      reads this
    {
      LastItem(rows)
    }

    /** `updateLogData` */
    method UpdateLogData(items: seq<LogData>)
      requires KeysGenerated(rows, lastId)
      modifies this
      ensures rows == UpdateAll(old(rows), items) && lastId == old(lastId)
      ensures KeysGenerated(rows, lastId)
    {
      UpdateKeepsKeys(rows, items);
      rows := UpdateAll(rows, items);
    }

    /** `deleteLogData` */
    method DeleteLogData(items: seq<LogData>)
      requires KeysGenerated(rows, lastId)
      modifies this
      ensures rows == DeleteIds(old(rows), items) && lastId == old(lastId)
      ensures KeysGenerated(rows, lastId)
    {
      FilterKeepsKeysGenerated(rows, KeyNotIn(IdsOf(items)), lastId);
      rows := DeleteIds(rows, items);
    }

    /** `deleteAll`: the table is empty, so it has no last item and nothing unsynced. */
    method DeleteAll()
      modifies this
      ensures rows == [] && lastId == old(lastId)
      ensures GetLastItem() == None && UnsyncedCount() == 0
    {
      rows := [];
    }
  }
}
