/**
 * The worker that uploads the unsynced sensor readings: batch after batch of the oldest
 * unsynced rows is posted and, once the server has accepted it, deleted from the store, until
 * the store has no unsynced row left, a transient network error asks for a retry, or another
 * error fails the run.
 *
 * The server's answer to each POST is the `responses(round)` of a stream of responses, one per
 * round; the HTTP request itself, the progress report and the foreground notification are
 * not part of this model.
 */
module SensorReadingsUpload {
  import opened LogStore
  import Seqs

  /** How a POST of a batch ends: accepted, or one of the errors Volley reports. */
  datatype PostResponse = Posted | NetworkError | TimeoutError | OtherError

  /**
   * How the batch loop ends. `Crashed` is the exception the progress division throws in the
   * first round; thrown in a later round, it is caught by the round before, which fails.
   */
  datatype DrainEnd = Drained | RetryLater | Failed | Crashed

  /** The worker's `Result`. */
  datatype WorkResult = Success | Retry | Failure

  /** The end of the batch loop, the store it leaves, and the batches it posted, in order. */
  datatype DrainResult = DrainResult(end: DrainEnd, rows: seq<LogData>, posted: seq<seq<LogData>>)

  /** The batch size the worker asks the store for. */
  const BatchSize := 200

  /** One element of the JSON array posted to the server. */
  datatype Reading = Reading(sensorType: string, timestamp: int, data: string)

  /** `remaining - data.size`, the rows still to go once a batch is synced. */
  function AfterBatch(remaining: int, batch: seq<LogData>): int
  {
    remaining - |batch|
  }

  /**
   * `syncNextNActivities`: fetch the next n unsynced rows; none left ends the loop; otherwise
   * report the progress (a division by `remaining`, which throws when it is 0), post the batch,
   * and on success delete it and go on with `remaining` lowered by its size. The next round runs
   * inside this round's `try`, so its division throwing is caught here: not a network or timeout
   * error, it fails the run.
   */
  function Drain(rows: seq<LogData>, remaining: int, n: int, responses: nat -> PostResponse, round: nat): (r: DrainResult)
    decreases |rows|
  {
    var data := NextNUnsynced(rows, n);
    if |data| == 0 then DrainResult(Drained, rows, [])
    else if remaining == 0 then DrainResult(Crashed, rows, [])
    else
      match responses(round)
      case Posted =>
        OldestSpec(rows, n, IsUnsynced());
        DeleteShrinks(rows, data);
        var next := Drain(DeleteIds(rows, data), AfterBatch(remaining, data), n, responses, round + 1);
        DrainResult(Caught(next.end), next.rows, [data] + next.posted)
      case NetworkError => DrainResult(RetryLater, rows, [])
      case TimeoutError => DrainResult(RetryLater, rows, [])
      case OtherError => DrainResult(Failed, rows, [])
  }

  /** What the `catch` around a round's recursive call makes of the next round's end: its crash fails the run. */
  function Caught(end: DrainEnd): (r: DrainEnd)
    ensures r != Crashed
    ensures end != Crashed ==> r == end
  {
    if end == Crashed then Failed else end
  }

  /**
   * A run crashes exactly when its first round finds a batch with `remaining` at 0: a
   * division by zero in any later round fails the run instead.
   */
  lemma CrashOnlyInFirstRound(rows: seq<LogData>, remaining: int, n: int, responses: nat -> PostResponse, round: nat)
    ensures Drain(rows, remaining, n, responses, round).end == Crashed <==>
      |NextNUnsynced(rows, n)| > 0 && remaining == 0
  {
  }

  /** A batch posted before the division throws is deleted, and the run fails rather than crashes. */
  lemma {:induction false} LaterCrashFails(rows: seq<LogData>, remaining: int, n: int, responses: nat -> PostResponse, round: nat)
    requires |NextNUnsynced(rows, n)| > 0 && remaining != 0 && responses(round).Posted?
    requires var data := NextNUnsynced(rows, n);
      |NextNUnsynced(DeleteIds(rows, data), n)| > 0 && AfterBatch(remaining, data) == 0
    ensures Drain(rows, remaining, n, responses, round).end == Failed
    ensures Drain(rows, remaining, n, responses, round).posted == [NextNUnsynced(rows, n)]
  {
    var data := NextNUnsynced(rows, n);
    OldestSpec(rows, n, IsUnsynced());
    DeleteShrinks(rows, data);
    CrashOnlyInFirstRound(DeleteIds(rows, data), AfterBatch(remaining, data), n, responses, round + 1);
  }

  /** The result `doWork` returns for an end of the batch loop; its `catch` turns a first-round crash into a retry. */
  function ResultOf(end: DrainEnd): WorkResult
  {
    match end
    case Drained => Success
    case RetryLater => Retry
    case Failed => Failure
    case Crashed => Retry
  }

  /**
   * `doWork`: an empty token fails at once; otherwise the loop starts with the unsynced count
   * as `remaining` and batches of 200.
   */
  function Work(rows: seq<LogData>, token: string, responses: nat -> PostResponse): (r: (WorkResult, seq<LogData>))
    ensures token == "" ==> r == (Failure, rows)
  {
    if token == "" then (Failure, rows)
    else
      var d := Drain(rows, CountWhere(rows, IsUnsynced()), BatchSize, responses, 0);
      (ResultOf(d.end), d.rows)
  }

  /** The keys of all the posted batches. */
  function PostedIds(posted: seq<seq<LogData>>): set<int>
  {
    if |posted| == 0 then {} else IdsOf(posted[0]) + PostedIds(posted[1..])
  }

  /**
   * Every posted batch holds unsynced rows of the store, and the store the loop leaves is the
   * store without the rows whose key was posted: a row is deleted exactly when the server
   * accepted it.
   */
  lemma {:induction false} DrainDeletesExactlyPosted(rows: seq<LogData>, remaining: int, n: int, responses: nat -> PostResponse, round: nat)
    ensures var r := Drain(rows, remaining, n, responses, round);
            && (forall x :: x in r.rows <==> x in rows && x.id !in PostedIds(r.posted))
            && (forall k, i :: 0 <= k < |r.posted| && 0 <= i < |r.posted[k]| ==> r.posted[k][i] in rows && !r.posted[k][i].synced)
    decreases |rows|
  {
    var data := NextNUnsynced(rows, n);
    var r := Drain(rows, remaining, n, responses, round);
    if |data| > 0 && remaining != 0 && responses(round).Posted? {
      OldestSpec(rows, n, IsUnsynced());
      DeleteShrinks(rows, data);
      var rest := DeleteIds(rows, data);
      var next := Drain(rest, AfterBatch(remaining, data), n, responses, round + 1);
      DrainDeletesExactlyPosted(rest, AfterBatch(remaining, data), n, responses, round + 1);
      assert r.posted == [data] + next.posted;
      assert r.posted[1..] == next.posted;
      assert PostedIds(r.posted) == IdsOf(data) + PostedIds(next.posted);
      forall x ensures x in r.rows <==> x in rows && x.id !in PostedIds(r.posted) {
        assert x in rest <==> x in rows && x.id !in IdsOf(data) by {
          if x in rows && x.id !in IdsOf(data) {
            var i :| 0 <= i < |rows| && rows[i] == x;
            assert KeyNotIn(IdsOf(data))(rows[i]);
          }
        }
      }
      forall k, i | 0 <= k < |r.posted| && 0 <= i < |r.posted[k]|
        ensures r.posted[k][i] in rows && !r.posted[k][i].synced
      {
        if k > 0 {
          assert r.posted[k] == next.posted[k - 1];
        }
      }
    }
  }

  /** A loop that drains the store with a positive batch size leaves no unsynced row behind. */
  lemma {:induction false} DrainedLeavesNoUnsynced(rows: seq<LogData>, remaining: int, n: int, responses: nat -> PostResponse, round: nat)
    requires n > 0
    ensures var r := Drain(rows, remaining, n, responses, round);
            r.end == Drained ==> CountWhere(r.rows, IsUnsynced()) == 0
    decreases |rows|
  {
    var data := NextNUnsynced(rows, n);
    OldestSpec(rows, n, IsUnsynced());
    if |data| > 0 && remaining != 0 && responses(round).Posted? {
      DeleteShrinks(rows, data);
      DrainedLeavesNoUnsynced(DeleteIds(rows, data), AfterBatch(remaining, data), n, responses, round + 1);
    }
  }

  /**
   * A retry or a failure keeps the batch of the round that stopped in the store: the same
   * query still finds unsynced rows.
   */
  lemma {:induction false} StoppedRoundKeepsBatch(rows: seq<LogData>, remaining: int, n: int, responses: nat -> PostResponse, round: nat)
    ensures var r := Drain(rows, remaining, n, responses, round);
            r.end == RetryLater || r.end == Failed || r.end == Crashed ==> |NextNUnsynced(r.rows, n)| > 0
    decreases |rows|
  {
    var data := NextNUnsynced(rows, n);
    if |data| > 0 && remaining != 0 && responses(round).Posted? {
      OldestSpec(rows, n, IsUnsynced());
      DeleteShrinks(rows, data);
      StoppedRoundKeepsBatch(DeleteIds(rows, data), AfterBatch(remaining, data), n, responses, round + 1);
    }
  }

  /**
   * Started with at least the unsynced count as `remaining`, the progress division never
   * divides by zero: each posted batch takes at least its size off the unsynced count.
   */
  lemma {:induction false} DrainNeverCrashes(rows: seq<LogData>, remaining: int, n: int, responses: nat -> PostResponse, round: nat)
    requires remaining >= CountWhere(rows, IsUnsynced())
    ensures Drain(rows, remaining, n, responses, round).end != Crashed
    decreases |rows|
  {
    var data := NextNUnsynced(rows, n);
    OldestSpec(rows, n, IsUnsynced());
    if |data| > 0 {
      assert multiset(data) <= multiset(Seqs.Filter(rows, IsUnsynced()));
      assert |data| <= CountWhere(rows, IsUnsynced()) by {
        assert |multiset(data)| <= |multiset(Seqs.Filter(rows, IsUnsynced()))|;
      }
      if remaining != 0 && responses(round).Posted? {
        DeleteShrinks(rows, data);
        DeleteLowersUnsyncedCount(rows, data);
        DrainNeverCrashes(DeleteIds(rows, data), AfterBatch(remaining, data), n, responses, round + 1);
      }
    }
  }

  /**
   * With a token, the worker succeeds only when no unsynced row is left, and retries or fails
   * only with a batch still waiting in the store; the progress division never crashes it.
   */
  lemma WorkOutcomes(rows: seq<LogData>, token: string, responses: nat -> PostResponse)
    requires token != ""
    ensures var r := Work(rows, token, responses);
            && (r.0 == Success ==> CountWhere(r.1, IsUnsynced()) == 0)
            && (r.0 != Success ==> |NextNUnsynced(r.1, BatchSize)| > 0)
  {
    var remaining := CountWhere(rows, IsUnsynced());
    DrainNeverCrashes(rows, remaining, BatchSize, responses, 0);
    DrainedLeavesNoUnsynced(rows, remaining, BatchSize, responses, 0);
    StoppedRoundKeepsBatch(rows, remaining, BatchSize, responses, 0);
  }

  /**
   * The JSON array posted for a batch: one reading per row, in the batch's order, carrying the
   * row's sensor name as its type, its timestamp and its data.
   */
  method BuildPayload(data: seq<LogData>) returns (payload: seq<Reading>)
    ensures |payload| == |data|
    ensures forall i :: 0 <= i < |data| ==>
              payload[i] == Reading(data[i].sensorName, data[i].timestamp, data[i].data)
  {
    payload := [];
    for i := 0 to |data|
      invariant |payload| == i
      invariant forall j :: 0 <= j < i ==> payload[j] == Reading(data[j].sensorName, data[j].timestamp, data[j].data)
    {
      payload := payload + [Reading(data[i].sensorName, data[i].timestamp, data[i].data)];
    }
  }

  /** `syncNextNActivities` on the store behind `db`. */
  method SyncNextNActivities(db: LogDataDao, remaining: int, n: int, responses: nat -> PostResponse, round: nat)
    returns (end: DrainEnd)
    requires KeysGenerated(db.rows, db.lastId)
    modifies db
    ensures var r := Drain(old(db.rows), remaining, n, responses, round);
            end == r.end && db.rows == r.rows && db.lastId == old(db.lastId)
    ensures KeysGenerated(db.rows, db.lastId)
    decreases |db.rows|
  {
    var data := db.GetNextNUnsynced(n);
    if |data| == 0 {
      return Drained;
    }
    if remaining == 0 {
      return Crashed;
    }
    var payload := BuildPayload(data);
    var response := responses(round);
    if response.Posted? {
      OldestSpec(db.rows, n, IsUnsynced());
      DeleteShrinks(db.rows, data);
      db.DeleteLogData(data);
      end := SyncNextNActivities(db, AfterBatch(remaining, data), n, responses, round + 1);
      end := Caught(end);
    } else if response.NetworkError? || response.TimeoutError? {
      end := RetryLater;
    } else {
      end := Failed;
    }
  }

  /** `doWork` on the store behind `db`. */
  method DoWork(db: LogDataDao, token: string, responses: nat -> PostResponse) returns (result: WorkResult)
    requires KeysGenerated(db.rows, db.lastId)
    modifies db
    ensures (result, db.rows) == Work(old(db.rows), token, responses)
    ensures db.lastId == old(db.lastId)
    ensures KeysGenerated(db.rows, db.lastId)
  {
    if token == "" {
      return Failure;
    }
    var total := db.UnsyncedCount();
    var end := SyncNextNActivities(db, total, BatchSize, responses, 0);
    result := ResultOf(end);
  }
}
