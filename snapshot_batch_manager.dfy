/**
 * The batching of accessibility snapshots: snapshots are queued, and a flush drains up to a
 * batch's worth of them, oldest first, into one JSON batch that is stored in the staging table
 * and announced by a broadcast carrying the row's id.
 *
 * The coroutines run to completion at once here: a flush happens in the call that asks for it.
 * Both clock readings of a flush are its `now`.
 */
module SnapshotBatching {
  import opened Wrappers
  import J = Json
  import Text
  import opened ScreenSnapshots

  const DefaultBatchSize: int := 4
  const FlushIntervalMs: int := 30_000
  /** Stored batches older than this are deleted by the cleanup. */
  const CleanupAgeMs: int := 300_000

  /** A row of the `snapshot_batches` table. */
  datatype SnapshotBatchRow = SnapshotBatchRow(id: int, timestamp: int, jsonData: J.Json, count: int, createdAt: int)

  /** The broadcast that tells the main app a batch is waiting. */
  datatype BatchNotice = BatchNotice(batchId: int, count: int, timestamp: int)

  /** The manager's state: the queue, the staging table, the last generated key, the broadcasts sent. */
  datatype ManagerState = ManagerState(queue: seq<ScreenSnapshot>, rows: seq<SnapshotBatchRow>, lastId: int, notices: seq<BatchNotice>)

  /** `createBatchJson` */
  function BatchJson(snapshots: seq<ScreenSnapshot>, now: int): J.Json
  {
    J.JObject(map[
      J.Timestamp := J.JNum(now),
      J.Count := J.JNum(|snapshots|),
      J.Snapshots := J.JArray(J.ArrayOf(snapshots, SnapshotToJson))])
  }

  /** How many snapshots a drain takes: all of them, but no more than a batch. */
  function TakeCount(queueSize: int, batchSize: int): (k: int)
    requires queueSize >= 0
    ensures 0 <= k <= queueSize
    ensures batchSize > 0 ==> k == queueSize || k == batchSize
    ensures batchSize <= 0 ==> k == 0
  {
    if batchSize <= 0 then 0 else if queueSize <= batchSize then queueSize else batchSize
  }

  /**
   * `broadcastBatch`: store the batch, with the timestamp and count read back from its JSON,
   * under a fresh key, and announce it. A getter that throws is caught: nothing is stored.
   */
  function Broadcast(st: ManagerState, batch: J.Json, now: int): ManagerState
  {
    var timestamp := J.GetLong(batch, J.Timestamp);
    var count := J.GetInt(batch, J.Count);
    if timestamp.None? || count.None? then st
    else
      var id := st.lastId + 1;
      st.(rows := st.rows + [SnapshotBatchRow(id, timestamp.value, batch, count.value, now)],
          lastId := id,
          notices := st.notices + [BatchNotice(id, count.value, timestamp.value)])
  }

  /** `flushBatch`: drain up to a batch from the head of the queue; an empty drain stores nothing. */
  function Flush(st: ManagerState, batchSize: int, now: int): ManagerState
  {
    var k := TakeCount(|st.queue|, batchSize);
    var drained := st.(queue := st.queue[k..]);
    if k == 0 then drained else Broadcast(drained, BatchJson(st.queue[..k], now), now)
  }

  /** `addSnapshot`: queue the snapshot, and flush once the queue holds a batch. */
  function Add(st: ManagerState, batchSize: int, s: ScreenSnapshot, now: int): ManagerState
  {
    var queued := st.(queue := st.queue + [s]);
    if |queued.queue| >= batchSize then Flush(queued, batchSize, now) else queued
  }

  /** `deleteOlderThan(now - 5 min)` */
  function Cleanup(st: ManagerState, now: int): (r: ManagerState)
    ensures r.queue == st.queue && r.lastId == st.lastId && r.notices == st.notices
    ensures forall x :: x in r.rows <==> x in st.rows && x.createdAt >= now - CleanupAgeMs
  {
    st.(rows := KeepNewer(st.rows, now - CleanupAgeMs))
  }

  function KeepNewer(rows: seq<SnapshotBatchRow>, cutoff: int): (r: seq<SnapshotBatchRow>)
    ensures forall x :: x in r <==> x in rows && x.createdAt >= cutoff
  {
    if |rows| == 0 then []
    else
      var rest := KeepNewer(rows[1..], cutoff);
      assert forall x :: x in rows <==> x == rows[0] || x in rows[1..];
      if rows[0].createdAt < cutoff then rest else [rows[0]] + rest
  }

  /** The batch's count, read back, is the number of snapshots it holds. */
  lemma BatchCountRead(snapshots: seq<ScreenSnapshot>, now: int)
    requires |snapshots| <= Text.IntMax
    ensures J.GetInt(BatchJson(snapshots, now), J.Count) == Some(|snapshots|)
    ensures J.GetLong(BatchJson(snapshots, now), J.Timestamp) == Some(now)
  {
  }

  /** The batch's snapshot array reads back as the snapshots, in the order they were queued. */
  lemma BatchSnapshotsRead(snapshots: seq<ScreenSnapshot>, now: int)
    requires forall i :: 0 <= i < |snapshots| ==> WellFormedSnapshot(snapshots[i])
    ensures var items := J.GetArray(BatchJson(snapshots, now), J.Snapshots);
            items.Some? && J.ReadArray(items.value, SnapshotFromJson) == Some(snapshots)
  {
    forall i | 0 <= i < |snapshots|
      ensures SnapshotFromJson(SnapshotToJson(snapshots[i])) == Some(snapshots[i])
    {
      SnapshotRoundTrip(snapshots[i]);
    }
    J.ReadArrayOf(snapshots, SnapshotToJson, SnapshotFromJson);
  }

  /**
   * A flush takes the oldest snapshots, at most a batch of them, and keeps the rest queued in
   * order; when it took any, it stores one batch holding exactly those, under a fresh key, whose
   * count is their number, and announces that batch.
   */
  lemma FlushDrainsOldestBatch(st: ManagerState, batchSize: int, now: int)
    requires batchSize <= Text.IntMax
    ensures var r := Flush(st, batchSize, now);
            var k := TakeCount(|st.queue|, batchSize);
            && r.queue == st.queue[k..]
            && k <= (if batchSize < 0 then 0 else batchSize)
            && (k == 0 ==> r.rows == st.rows && r.notices == st.notices && r.lastId == st.lastId)
            && (k > 0 ==>
                  && r.rows == st.rows + [SnapshotBatchRow(st.lastId + 1, now, BatchJson(st.queue[..k], now), k, now)]
                  && r.notices == st.notices + [BatchNotice(st.lastId + 1, k, now)]
                  && r.lastId == st.lastId + 1)
  {
    var k := TakeCount(|st.queue|, batchSize);
    if k > 0 {
      BatchCountRead(st.queue[..k], now);
    }
  }

  /** Nothing queued, nothing stored: a flush of an empty queue produces no batch. */
  lemma EmptyFlushStoresNothing(st: ManagerState, batchSize: int, now: int)
    requires st.queue == []
    ensures Flush(st, batchSize, now) == st
  {
  }

  /** Adding keeps the queue shorter than a batch: the snapshot that fills a batch flushes it. */
  lemma AddKeepsQueueBelowBatch(st: ManagerState, batchSize: int, s: ScreenSnapshot, now: int)
    requires 1 <= batchSize <= Text.IntMax && |st.queue| < batchSize
    ensures |Add(st, batchSize, s, now).queue| < batchSize
    ensures |st.queue| + 1 == batchSize ==> |Add(st, batchSize, s, now).rows| == |st.rows| + 1
    ensures |st.queue| + 1 < batchSize ==> Add(st, batchSize, s, now).queue == st.queue + [s]
  {
    var queued := st.(queue := st.queue + [s]);
    if |queued.queue| >= batchSize {
      FlushDrainsOldestBatch(queued, batchSize, now);
    }
  }

  /** The manager, with its queue and the staging table it writes to. */
  class SnapshotBatchManager {
    const batchSize: int
    var queue: seq<ScreenSnapshot>
    var rows: seq<SnapshotBatchRow>
    var lastId: int
    var notices: seq<BatchNotice>

    function Model(): ManagerState
      reads this
    {
      ManagerState(queue, rows, lastId, notices)
    }

    constructor (batchSize: int, rows: seq<SnapshotBatchRow>, lastId: int)
      ensures this.batchSize == batchSize
      ensures Model() == ManagerState([], rows, lastId, [])
    {
      this.batchSize := batchSize;
      queue := [];
      this.rows := rows;
      this.lastId := lastId;
      notices := [];
    }

    /** `getStats`: the queue size and the staging table size. */
    function Stats(): (r: (int, int))
      reads this
      ensures r.0 == |queue| && r.1 == |rows|
    {
      (|queue|, |rows|)
    }

    method BroadcastBatch(batch: J.Json, now: int)
      modifies this
      ensures Model() == Broadcast(old(Model()), batch, now)
    {
      var timestamp := J.GetLong(batch, J.Timestamp);
      var count := J.GetInt(batch, J.Count);
      if timestamp.None? || count.None? {
        return;
      }
      lastId := lastId + 1;
      rows := rows + [SnapshotBatchRow(lastId, timestamp.value, batch, count.value, now)];
      notices := notices + [BatchNotice(lastId, count.value, timestamp.value)];
    }

    /** `flushBatch` */
    method FlushBatch(now: int)
      modifies this
      ensures Model() == Flush(old(Model()), batchSize, now)
    {
      var snapshots: seq<ScreenSnapshot> := [];
      while |queue| > 0 && |snapshots| < batchSize
        invariant snapshots + queue == old(queue)
        invariant |snapshots| <= TakeCount(|old(queue)|, batchSize)
        invariant rows == old(rows) && lastId == old(lastId) && notices == old(notices)
        decreases |queue|
      {
        snapshots := snapshots + [queue[0]];
        queue := queue[1..];
      }
      var k := TakeCount(|old(queue)|, batchSize);
      assert |snapshots| == k;
      assert snapshots == old(queue)[..k] && queue == old(queue)[k..];
      if |snapshots| == 0 {
        return;
      }
      BroadcastBatch(BatchJson(snapshots, now), now);
    }

    /** `addSnapshot` */
    method AddSnapshot(s: ScreenSnapshot, now: int)
      modifies this
      ensures Model() == Add(old(Model()), batchSize, s, now)
    {
      queue := queue + [s];
      if |queue| >= batchSize {
        FlushBatch(now);
      }
    }

    /** One tick of the periodic flush: flush when anything is queued. */
    method PeriodicFlush(now: int)
      modifies this
      ensures Model() == if old(queue) == [] then old(Model()) else Flush(old(Model()), batchSize, now)
    {
      if |queue| > 0 {
        FlushBatch(now);
      }
    }

    /** `cleanupOldBatches` */
    method CleanupOldBatches(now: int)
      modifies this
      ensures Model() == Cleanup(old(Model()), now)
    {
      rows := KeepNewer(rows, now - CleanupAgeMs);
    }

    /** `shutdown`: the periodic jobs stop, and what is queued is flushed once more. */
    method Shutdown(now: int)
      modifies this
      ensures Model() == Flush(old(Model()), batchSize, now)
    {
      FlushBatch(now);
    }
  }
}
