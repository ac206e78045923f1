/**
 * The floating-widget notification scheduler (service/esm/FloatingWidgetNotificationScheduler.kt):
 * planning one notification per time bucket and day with a minimum distance between them, the
 * timeout notifications that follow them, and choosing which stored notification is valid now.
 *
 * Where Kotlin throws (a bucket text that does not parse, an empty random range) the functions
 * return None. Random numbers and fresh UUIDs are drawn from a `Draws` stream given by the caller.
 */
module FloatingWidgetScheduler {
  import opened Wrappers
  import opened Triggers
  import opened Seqs
  import Text
  import Clock
  import BucketedWidget

  /** A questionnaire trigger of the floating-widget kind (EMAFloatingWidgetNotificationTrigger). */
  type WidgetTrigger = t: QuestionnaireTrigger | t.config.FloatingWidget?
    witness QuestionnaireTrigger(0, 0, 0, false,
      FloatingWidget(WidgetConfig("", "", [], 0, 0, 0, Push, Default, Scheduled, "", None)), "")

  /** `distanceMinutes * 60 * 1000`: both products are `Int` products and wrap. */
  function DistanceMs(w: WidgetConfig): int
  {
    Text.Wrap32(Text.Wrap32(w.distanceMinutes * 60) * 1000)
  }

  /** `randomToleranceMinutes * 60 * 1000L`: the first product is an `Int`, the second a `Long`. */
  function ToleranceMs(w: WidgetConfig): int
  {
    Text.Wrap32(w.randomToleranceMinutes * 60) * 1000
  }

  /** `delayMinutes * 60 * 1000L` */
  function DelayMs(w: WidgetConfig): int
  {
    Text.Wrap32(w.delayMinutes * 60) * 1000
  }

  /** Up to 35 791 minutes the distance is the exact number of milliseconds. */
  lemma DistanceExact(w: WidgetConfig)
    requires 0 <= w.distanceMinutes <= 35791
    ensures DistanceMs(w) == w.distanceMinutes * 60000
  {
    Text.Wrap32InRange(w.distanceMinutes * 60);
    Text.Wrap32InRange(w.distanceMinutes * 60000);
  }

  /** From 35 792 minutes on, the distance wraps to a negative number of milliseconds. */
  lemma DistanceWraps()
    ensures DistanceMs(WidgetConfig("", "", [], 35792, 0, 0, Push, Default, Scheduled, "", None)) < 0
  {
    Text.Wrap32InRange(35792 * 60);
    Clock.DivModUnique(1, 35792 * 60000 - Text.IntMin - Text.TwoTo32, Text.TwoTo32);
  }

  /** Up to 35 791 394 minutes a tolerance or delay is the exact number of milliseconds. */
  lemma LongMinutesExact(minutes: int)
    requires 0 <= minutes <= 35791394
    ensures Text.Wrap32(minutes * 60) * 1000 == minutes * 60000
  {
    Text.Wrap32InRange(minutes * 60);
  }

  // ---------------------------------------------------------------------------------------------
  // applyTimeoutTrigger

  /**
   * The timeout notification that follows `n`: the timeout trigger's name, priority, modality,
   * source and questionnaire, `n`'s bucket, status and creation time, and `n`'s time plus the
   * timeout trigger's delay. `uid` is the fresh UUID. The source's constructor call passes no
   * `updatedAt`; the model takes `n`'s creation time for it.
   */
  function ApplyTimeoutTrigger(n: NotificationTrigger, timeout: WidgetTrigger, uid: int): (r: NotificationTrigger)
    ensures r.timeBucket == n.timeBucket && r.status == n.status && r.addedAt == n.addedAt
    ensures r.validFrom == n.validFrom + DelayMs(timeout.config.widget)
    ensures r.name == timeout.config.widget.name && r.priority == timeout.config.widget.priority
    ensures r.modality == timeout.config.widget.modality && r.source == timeout.config.widget.source
    ensures r.questionnaireId == timeout.questionnaireId && r.triggerJson == timeout.json
  {
    var w := timeout.config.widget;
    NotificationTrigger(uid, n.addedAt, w.name, n.status, n.validFrom + DelayMs(w), w.priority,
      n.timeBucket, w.modality, w.source, timeout.questionnaireId, timeout.json,
      None, None, None, None, n.addedAt)
  }

  /** With a delay in `Int` range, the timeout comes exactly that many minutes after the notification. */
  lemma TimeoutAfterDelay(n: NotificationTrigger, timeout: WidgetTrigger, uid: int)
    requires 0 <= timeout.config.widget.delayMinutes <= 35791394
    ensures ApplyTimeoutTrigger(n, timeout, uid).validFrom == n.validFrom + timeout.config.widget.delayMinutes * 60000
    ensures ApplyTimeoutTrigger(n, timeout, uid).validFrom >= n.validFrom
  {
    LongMinutesExact(timeout.config.widget.delayMinutes);
  }

  // ---------------------------------------------------------------------------------------------
  // Buckets on a day

  /** A bucket text with its start and end instants on some day. */
  datatype Slot = Slot(name: string, start: int, end: int)

  function SlotStart(s: Slot): int
  {
    s.start
  }

  /** `buckets.map { parseTimebucket(it, day) }`; None when any bucket does not parse. */
  function SlotsOf(buckets: seq<string>, day: int): Option<seq<Slot>>
  {
    if |buckets| == 0 then Some([])
    else
      var first := BucketedWidget.ParseTimebucket(buckets[0], day);
      var rest := SlotsOf(buckets[1..], day);
      if first.None? || rest.None? then None
      else Some([Slot(buckets[0], first.value.0, first.value.1)] + rest.value)
  }

  /** The slots are the buckets read on the day, in order; there are none when some bucket does not read. */
  lemma {:induction false} SlotsOfSpec(buckets: seq<string>, day: int)
    ensures var r := SlotsOf(buckets, day);
      && (r.Some? ==> |r.value| == |buckets|)
      && (r.Some? ==> forall i :: 0 <= i < |buckets| ==>
            r.value[i].name == buckets[i]
            && BucketedWidget.ParseTimebucket(buckets[i], day) == Some((r.value[i].start, r.value[i].end)))
      && (r.None? <==> exists i :: 0 <= i < |buckets| && BucketedWidget.ParseTimebucket(buckets[i], day).None?)
  {
    SlotsOfFails(buckets, day);
    if SlotsOf(buckets, day).Some? {
      SlotsOfReads(buckets, day);
    }
  }

  /** Reading the buckets fails exactly when one of them does not parse. */
  lemma {:induction false} SlotsOfFails(buckets: seq<string>, day: int)
    ensures SlotsOf(buckets, day).None? <==>
      exists i :: 0 <= i < |buckets| && BucketedWidget.ParseTimebucket(buckets[i], day).None?
  {
    if |buckets| > 0 && BucketedWidget.ParseTimebucket(buckets[0], day).Some? {
      var tail := buckets[1..];
      SlotsOfFails(tail, day);
      assert SlotsOf(buckets, day).None? <==> SlotsOf(tail, day).None?;
      if SlotsOf(tail, day).None? {
        var k :| 0 <= k < |tail| && BucketedWidget.ParseTimebucket(tail[k], day).None?;
        assert buckets[k + 1] == tail[k];
      }
      if exists i :: 0 <= i < |buckets| && BucketedWidget.ParseTimebucket(buckets[i], day).None? {
        var k :| 0 <= k < |buckets| && BucketedWidget.ParseTimebucket(buckets[k], day).None?;
        assert tail[k - 1] == buckets[k];
      }
    }
  }

  /** Read buckets keep their order and names, each with the window it parses to. */
  lemma {:induction false} SlotsOfReads(buckets: seq<string>, day: int)
    requires SlotsOf(buckets, day).Some?
    ensures var r := SlotsOf(buckets, day).value;
      && |r| == |buckets|
      && forall i :: 0 <= i < |buckets| ==>
           r[i].name == buckets[i]
           && BucketedWidget.ParseTimebucket(buckets[i], day) == Some((r[i].start, r[i].end))
  {
    if |buckets| > 0 {
      var first := BucketedWidget.ParseTimebucket(buckets[0], day);
      var tail := buckets[1..];
      var rest := SlotsOf(tail, day);
      SlotsOfReads(tail, day);
      var r := [Slot(buckets[0], first.value.0, first.value.1)] + rest.value;
      assert SlotsOf(buckets, day) == Some(r);
      forall i | 0 <= i < |buckets|
        ensures r[i].name == buckets[i]
        ensures BucketedWidget.ParseTimebucket(buckets[i], day) == Some((r[i].start, r[i].end))
      {
        if i > 0 {
          assert r[i] == rest.value[i - 1] && buckets[i] == tail[i - 1];
        }
      }
    }
  }

  // ---------------------------------------------------------------------------------------------
  // selectLastValidTrigger

  /** The distinct buckets of `ts` in order of first occurrence: the keys of `groupBy`. */
  function BucketKeys(ts: seq<NotificationTrigger>): (keys: seq<string>)
    ensures forall i, j :: 0 <= i < j < |keys| ==> keys[i] != keys[j]
    ensures forall i :: 0 <= i < |ts| ==> ts[i].timeBucket in keys
    ensures forall k :: 0 <= k < |keys| ==> exists i :: 0 <= i < |ts| && ts[i].timeBucket == keys[k]
  {
    if |ts| == 0 then []
    else
      var init := BucketKeys(ts[..|ts| - 1]);
      var b := ts[|ts| - 1].timeBucket;
      assert forall i :: 0 <= i < |ts| - 1 ==> ts[i] == ts[..|ts| - 1][i];
      if b in init then init else init + [b]
  }

  function HasBucket(bucket: string): NotificationTrigger -> bool
  {
    (t: NotificationTrigger) => t.timeBucket == bucket
  }

  /** The triggers of one bucket, in list order: a value of `groupBy`. */
  function Group(ts: seq<NotificationTrigger>, bucket: string): seq<NotificationTrigger>
  {
    Filter(ts, HasBucket(bucket))
  }

  function ValidFrom(t: NotificationTrigger): int
  {
    t.validFrom
  }

  predicate IsOpen(t: NotificationTrigger)
  {
    t.status != Answered
  }

  predicate IsOpenWaveBreaking(t: NotificationTrigger)
  {
    t.priority == WaveBreaking && t.status != Answered
  }

  /** The bucket's window on the day of `now` holds `now`. */
  function Covers(now: int): string -> bool
  {
    (b: string) => var w := BucketedWidget.ParseTimebucket(b, now); w.Some? && w.value.0 <= now <= w.value.1
  }

  /** An unanswered wave-breaking trigger whose bucket ended before `now`. */
  predicate Eligible(t: NotificationTrigger, now: int)
  {
    var w := BucketedWidget.ParseTimebucket(t.timeBucket, now);
    IsOpenWaveBreaking(t) && w.Some? && w.value.1 < now
  }

  /** Replace the best so far only by a strictly later candidate. */
  function Later(acc: Option<NotificationTrigger>, candidate: Option<NotificationTrigger>): Option<NotificationTrigger>
  {
    match candidate
    case None => acc
    case Some(c) => if acc.None? || c.validFrom > acc.value.validFrom then candidate else acc
  }

  /** The loop over the buckets sorted by start that keeps the latest wave-breaking trigger. */
  function LatestWaveBreaking(sorted: seq<Slot>, ts: seq<NotificationTrigger>, now: int,
                              acc: Option<NotificationTrigger>): Option<NotificationTrigger>
    decreases |sorted|
  {
    if |sorted| == 0 then acc
    else
      var next :=
        if sorted[0].end < now then Later(acc, MaxBy(Filter(Group(ts, sorted[0].name), IsOpenWaveBreaking), ValidFrom))
        else acc;
      LatestWaveBreaking(sorted[1..], ts, now, next)
  }

  /** The fallback: the latest unanswered trigger of the current bucket. */
  function LatestOpen(ts: seq<NotificationTrigger>, bucket: string): Option<NotificationTrigger>
  {
    MaxBy(Filter(Group(ts, bucket), IsOpen), ValidFrom)
  }

  /**
   * selectLastValidTrigger: the latest unanswered wave-breaking trigger of a bucket that has
   * ended, else the latest unanswered trigger of the bucket holding `now`, else nothing.
   * The outer None is the exception a bucket text that does not parse raises.
   */
  function SelectLastValidTrigger(ts: seq<NotificationTrigger>, now: int): Option<Option<NotificationTrigger>>
  {
    if |ts| == 0 then Some(None)
    else
      var keys := BucketKeys(ts);
      match SlotsOf(keys, now)
      case None => None
      case Some(slots) =>
        var current := Find(keys, Covers(now));
        var latest := LatestWaveBreaking(SortBy(slots, SlotStart), ts, now, None);
        if latest.Some? then Some(latest)
        else if current.Some? then Some(LatestOpen(ts, current.value))
        else Some(None)
  }

  /** The candidate of one bucket: an unanswered wave-breaking trigger of it, no earlier than any other. */
  lemma CandidateOfBucket(ts: seq<NotificationTrigger>, bucket: string)
    ensures var c := MaxBy(Filter(Group(ts, bucket), IsOpenWaveBreaking), ValidFrom);
      && (c.Some? ==> c.value in ts && c.value.timeBucket == bucket && IsOpenWaveBreaking(c.value))
      && forall i :: 0 <= i < |ts| && ts[i].timeBucket == bucket && IsOpenWaveBreaking(ts[i])
           ==> c.Some? && ts[i].validFrom <= c.value.validFrom
  {
    var group := Group(ts, bucket);
    var open := Filter(group, IsOpenWaveBreaking);
    var c := MaxBy(open, ValidFrom);
    if c.Some? {
      assert c.value in group;
    }
    forall i | 0 <= i < |ts| && ts[i].timeBucket == bucket && IsOpenWaveBreaking(ts[i])
      ensures c.Some? && ts[i].validFrom <= c.value.validFrom
    {
      assert ts[i] in group;
      var k :| 0 <= k < |group| && group[k] == ts[i];
      assert ts[i] in open;
      var m :| 0 <= m < |open| && open[m] == ts[i];
      assert ValidFrom(open[m]) <= ValidFrom(c.value);
    }
  }

  /** The fold only ever improves on what it starts with, and what it returns is its start or eligible. */
  /** One step of the fold: the best so far never gets earlier, and a new best is an eligible trigger. */
  lemma LaterStep(s: Slot, ts: seq<NotificationTrigger>, now: int, acc: Option<NotificationTrigger>)
    requires BucketedWidget.ParseTimebucket(s.name, now) == Some((s.start, s.end))
    ensures var next :=
        if s.end < now then Later(acc, MaxBy(Filter(Group(ts, s.name), IsOpenWaveBreaking), ValidFrom))
        else acc;
      && (acc.Some? ==> next.Some? && next.value.validFrom >= acc.value.validFrom)
      && (next.Some? ==> next == acc || (next.value in ts && Eligible(next.value, now)))
  {
    CandidateOfBucket(ts, s.name);
  }

  lemma {:induction false} LatestWaveBreakingGrows(sorted: seq<Slot>, ts: seq<NotificationTrigger>, now: int,
                                                   acc: Option<NotificationTrigger>)
    requires forall j :: 0 <= j < |sorted| ==>
      BucketedWidget.ParseTimebucket(sorted[j].name, now) == Some((sorted[j].start, sorted[j].end))
    ensures var r := LatestWaveBreaking(sorted, ts, now, acc);
      && (acc.Some? ==> r.Some? && r.value.validFrom >= acc.value.validFrom)
      && (r.Some? ==> r == acc || (r.value in ts && Eligible(r.value, now)))
    decreases |sorted|
  {
    if |sorted| > 0 {
      var s := sorted[0];
      var next :=
        if s.end < now then Later(acc, MaxBy(Filter(Group(ts, s.name), IsOpenWaveBreaking), ValidFrom))
        else acc;
      var rest := sorted[1..];
      assert forall j :: 0 <= j < |rest| ==> rest[j] == sorted[j + 1];
      LaterStep(s, ts, now, acc);
      assert LatestWaveBreaking(sorted, ts, now, acc) == LatestWaveBreaking(rest, ts, now, next);
      LatestWaveBreakingGrows(rest, ts, now, next);
    }
  }

  /** The fold's result is no earlier than any eligible trigger of a bucket it visits. */
  lemma {:induction false} LatestWaveBreakingBest(sorted: seq<Slot>, ts: seq<NotificationTrigger>, now: int,
                                                  acc: Option<NotificationTrigger>)
    requires forall j :: 0 <= j < |sorted| ==>
      BucketedWidget.ParseTimebucket(sorted[j].name, now) == Some((sorted[j].start, sorted[j].end))
    ensures var r := LatestWaveBreaking(sorted, ts, now, acc);
      forall i, j :: 0 <= i < |ts| && 0 <= j < |sorted| && ts[i].timeBucket == sorted[j].name && Eligible(ts[i], now)
        ==> r.Some? && ts[i].validFrom <= r.value.validFrom
    decreases |sorted|
  {
    if |sorted| > 0 {
      var s := sorted[0];
      var next :=
        if s.end < now then Later(acc, MaxBy(Filter(Group(ts, s.name), IsOpenWaveBreaking), ValidFrom))
        else acc;
      assert forall j :: 1 <= j < |sorted| ==> sorted[j] == sorted[1..][j - 1];
      var r := LatestWaveBreaking(sorted, ts, now, acc);
      assert r == LatestWaveBreaking(sorted[1..], ts, now, next);
      LatestWaveBreakingBest(sorted[1..], ts, now, next);
      LatestWaveBreakingGrows(sorted[1..], ts, now, next);
      forall i, j | 0 <= i < |ts| && 0 <= j < |sorted| && ts[i].timeBucket == sorted[j].name && Eligible(ts[i], now)
        ensures r.Some? && ts[i].validFrom <= r.value.validFrom
      {
        if j == 0 {
          CandidateOfBucket(ts, s.name);
          assert s.end < now;
        } else {
          assert sorted[j] == sorted[1..][j - 1];
        }
      }
    }
  }

  /** Some slot carries the bucket `name`. */
  predicate Named(slots: seq<Slot>, name: string)
  {
    exists j :: 0 <= j < |slots| && slots[j].name == name
  }

  /** When every trigger's bucket parses, so do the keys of the grouping. */
  lemma {:induction false} KeysParse(ts: seq<NotificationTrigger>, now: int)
    requires forall i :: 0 <= i < |ts| ==> BucketedWidget.ParseTimebucket(ts[i].timeBucket, now).Some?
    ensures SlotsOf(BucketKeys(ts), now).Some?
  {
    KeysAllParse(ts, now);
    SlotsOfAllParse(BucketKeys(ts), now);
  }

  lemma KeysAllParse(ts: seq<NotificationTrigger>, now: int)
    requires forall i :: 0 <= i < |ts| ==> BucketedWidget.ParseTimebucket(ts[i].timeBucket, now).Some?
    ensures forall k :: 0 <= k < |BucketKeys(ts)| ==> BucketedWidget.ParseTimebucket(BucketKeys(ts)[k], now).Some?
  {
    var keys := BucketKeys(ts);
    forall k | 0 <= k < |keys| ensures BucketedWidget.ParseTimebucket(keys[k], now).Some? {
      var i :| 0 <= i < |ts| && ts[i].timeBucket == keys[k];
    }
  }

  /** Buckets that all parse read without failing. */
  lemma {:induction false} SlotsOfAllParse(buckets: seq<string>, day: int)
    requires forall i :: 0 <= i < |buckets| ==> BucketedWidget.ParseTimebucket(buckets[i], day).Some?
    ensures SlotsOf(buckets, day).Some?
  {
    if |buckets| > 0 {
      var tail := buckets[1..];
      assert forall i :: 0 <= i < |tail| ==> tail[i] == buckets[i + 1];
      SlotsOfAllParse(tail, day);
    }
  }

  /** The buckets of the triggers, sorted by start: each reads as its slot, and each trigger's bucket is one of them. */
  lemma {:induction false} SortedSlots(ts: seq<NotificationTrigger>, now: int)
    requires forall i :: 0 <= i < |ts| ==> BucketedWidget.ParseTimebucket(ts[i].timeBucket, now).Some?
    ensures SlotsOf(BucketKeys(ts), now).Some?
    ensures var sorted := SortBy(SlotsOf(BucketKeys(ts), now).value, SlotStart);
      && (forall j :: 0 <= j < |sorted| ==>
            BucketedWidget.ParseTimebucket(sorted[j].name, now) == Some((sorted[j].start, sorted[j].end)))
      && forall i :: 0 <= i < |ts| ==> Named(sorted, ts[i].timeBucket)
  {
    KeysParse(ts, now);
    var keys := BucketKeys(ts);
    var slots := SlotsOf(keys, now).value;
    var sorted := SortBy(slots, SlotStart);
    SlotsOfReads(keys, now);
    SortByPermutes(slots, SlotStart);
    forall j | 0 <= j < |sorted|
      ensures BucketedWidget.ParseTimebucket(sorted[j].name, now) == Some((sorted[j].start, sorted[j].end))
    {
      assert sorted[j] in multiset(slots);
    }
    forall i | 0 <= i < |ts| ensures Named(sorted, ts[i].timeBucket) {
      var k :| 0 <= k < |keys| && keys[k] == ts[i].timeBucket;
      assert slots[k] in multiset(sorted);
    }
  }

  /**
   * When every bucket parses and some unanswered wave-breaking trigger's bucket has ended, the
   * result is such a trigger, and no other such trigger is later.
   */
  lemma {:induction false} SelectWaveBreaking(ts: seq<NotificationTrigger>, now: int)
    requires forall i :: 0 <= i < |ts| ==> BucketedWidget.ParseTimebucket(ts[i].timeBucket, now).Some?
    requires exists i :: 0 <= i < |ts| && Eligible(ts[i], now)
    ensures var r := SelectLastValidTrigger(ts, now);
      && r.Some? && r.value.Some? && r.value.value in ts && Eligible(r.value.value, now)
      && forall i :: 0 <= i < |ts| && Eligible(ts[i], now) ==> ts[i].validFrom <= r.value.value.validFrom
  {
    SortedSlots(ts, now);
    var sorted := SortBy(SlotsOf(BucketKeys(ts), now).value, SlotStart);
    WaveBreakingFound(sorted, ts, now);
    SelectPrefersWaveBreaking(ts, now);
  }

  /** Over slots naming every trigger's bucket, the fold finds an eligible trigger no earlier than any other. */
  lemma WaveBreakingFound(sorted: seq<Slot>, ts: seq<NotificationTrigger>, now: int)
    requires forall j :: 0 <= j < |sorted| ==>
      BucketedWidget.ParseTimebucket(sorted[j].name, now) == Some((sorted[j].start, sorted[j].end))
    requires forall i :: 0 <= i < |ts| ==> Named(sorted, ts[i].timeBucket)
    requires exists i :: 0 <= i < |ts| && Eligible(ts[i], now)
    ensures var r := LatestWaveBreaking(sorted, ts, now, None);
      && r.Some? && r.value in ts && Eligible(r.value, now)
      && forall i :: 0 <= i < |ts| && Eligible(ts[i], now) ==> ts[i].validFrom <= r.value.validFrom
  {
    LatestWaveBreakingGrows(sorted, ts, now, None);
    LatestWaveBreakingBest(sorted, ts, now, None);
    forall i | 0 <= i < |ts| && Eligible(ts[i], now)
      ensures exists j :: 0 <= j < |sorted| && ts[i].timeBucket == sorted[j].name
    {
      assert Named(sorted, ts[i].timeBucket);
    }
  }

  /** A wave-breaking trigger found by the fold over the sorted slots is the one chosen. */
  lemma SelectPrefersWaveBreaking(ts: seq<NotificationTrigger>, now: int)
    requires |ts| > 0 && SlotsOf(BucketKeys(ts), now).Some?
    requires LatestWaveBreaking(SortBy(SlotsOf(BucketKeys(ts), now).value, SlotStart), ts, now, None).Some?
    ensures SelectLastValidTrigger(ts, now) ==
      Some(LatestWaveBreaking(SortBy(SlotsOf(BucketKeys(ts), now).value, SlotStart), ts, now, None))
  {
  }

  /**
   * When every bucket parses and no unanswered wave-breaking trigger's bucket has ended, the
   * result is the latest unanswered trigger of the first bucket holding `now`, or nothing.
   */
  lemma {:induction false} SelectCurrentBucket(ts: seq<NotificationTrigger>, now: int)
    requires forall i :: 0 <= i < |ts| ==> BucketedWidget.ParseTimebucket(ts[i].timeBucket, now).Some?
    requires forall i :: 0 <= i < |ts| ==> !Eligible(ts[i], now)
    ensures SelectLastValidTrigger(ts, now) ==
      Some(match Find(BucketKeys(ts), Covers(now))
           case None => None
           case Some(b) => LatestOpen(ts, b))
  {
    if |ts| > 0 {
      SortedSlots(ts, now);
      var sorted := SortBy(SlotsOf(BucketKeys(ts), now).value, SlotStart);
      LatestWaveBreakingGrows(sorted, ts, now, None);
    }
  }

  /** With no triggers there is nothing to choose; whatever is chosen is one of the triggers. */
  lemma {:induction false} SelectFromList(ts: seq<NotificationTrigger>, now: int)
    requires forall i :: 0 <= i < |ts| ==> BucketedWidget.ParseTimebucket(ts[i].timeBucket, now).Some?
    ensures var r := SelectLastValidTrigger(ts, now);
      && r.Some?
      && (|ts| == 0 ==> r.value.None?)
      && (r.value.Some? ==> r.value.value in ts)
  {
    if exists i :: 0 <= i < |ts| && Eligible(ts[i], now) {
      SelectWaveBreaking(ts, now);
    } else {
      SelectCurrentBucket(ts, now);
      var current := Find(BucketKeys(ts), Covers(now));
      if current.Some? {
        LatestOpenIsLatest(ts, current.value);
      }
    }
  }

  /** The fallback result is an unanswered trigger of that bucket, no earlier than any other one there. */
  lemma LatestOpenIsLatest(ts: seq<NotificationTrigger>, bucket: string)
    ensures var r := LatestOpen(ts, bucket);
      && (r.Some? ==> r.value in ts && r.value.timeBucket == bucket && r.value.status != Answered)
      && (r.Some? ==> forall i :: 0 <= i < |ts| && ts[i].timeBucket == bucket && ts[i].status != Answered
                        ==> ts[i].validFrom <= r.value.validFrom)
      && (r.None? <==> forall i :: 0 <= i < |ts| && ts[i].timeBucket == bucket ==> ts[i].status == Answered)
  {
    var group := Group(ts, bucket);
    var open := Filter(group, IsOpen);
    var r := LatestOpen(ts, bucket);
    if r.Some? {
      assert r.value in group;
    }
    forall i | 0 <= i < |ts| && ts[i].timeBucket == bucket && ts[i].status != Answered
      ensures ts[i] in open
    {
      assert ts[i] in group;
      var k :| 0 <= k < |group| && group[k] == ts[i];
    }
    if r.Some? {
      forall i | 0 <= i < |ts| && ts[i].timeBucket == bucket && ts[i].status != Answered
        ensures ts[i].validFrom <= r.value.validFrom
      {
        var m :| 0 <= m < |open| && open[m] == ts[i];
        assert ValidFrom(open[m]) <= ValidFrom(r.value);
      }
    }
  }

  predicate NotAfter(now: int, t: NotificationTrigger)
  {
    t.validFrom <= now
  }

  function NotAfterNow(now: int): NotificationTrigger -> bool
  {
    (t: NotificationTrigger) => NotAfter(now, t)
  }

  function NegValidFrom(t: NotificationTrigger): int
  {
    -t.validFrom
  }

  /**
   * getLatestValidTriggerForTime: of the rows the store holds for the day of `now`, those already
   * valid, latest first, go to selectLastValidTrigger.
   */
  function LatestValidTriggerForTime(dayRows: seq<NotificationTrigger>, now: int): Option<Option<NotificationTrigger>>
  {
    SelectLastValidTrigger(SortBy(Filter(dayRows, NotAfterNow(now)), NegValidFrom), now)
  }

  /** A trigger that is not yet valid is never chosen. */
  lemma LatestValidTriggerNotInFuture(dayRows: seq<NotificationTrigger>, now: int)
    requires forall i :: 0 <= i < |dayRows| ==> BucketedWidget.ParseTimebucket(dayRows[i].timeBucket, now).Some?
    ensures var r := LatestValidTriggerForTime(dayRows, now);
      r.Some? && (r.value.Some? ==> r.value.value in dayRows && r.value.value.validFrom <= now)
  {
    var valid := Filter(dayRows, NotAfterNow(now));
    var ts := SortBy(valid, NegValidFrom);
    SortByPermutes(valid, NegValidFrom);
    forall i | 0 <= i < |ts| ensures ts[i] in valid && BucketedWidget.ParseTimebucket(ts[i].timeBucket, now).Some? {
      assert ts[i] in multiset(valid);
    }
    SelectFromList(ts, now);
    var r := SelectLastValidTrigger(ts, now);
    if r.value.Some? {
      assert r.value.value in multiset(ts);
      assert r.value.value in valid;
    }
  }

  // ---------------------------------------------------------------------------------------------
  // planNotificationsForDay

  /** What one call of `Random.nextLong` and one of `UUID.randomUUID` return. */
  datatype Draw = Draw(offset: int, uid: int)

  /** The draws for the buckets of one day, by position in the sorted bucket list. */
  type DayDraws = nat -> Draw

  function Max(a: int, b: int): int
  {
    if a >= b then a else b
  }

  function Min(a: int, b: int): int
  {
    if a <= b then a else b
  }

  /** The earliest time for a bucket: its start, pushed back to `distance` after the last notification. */
  function Earliest(last: int, start: int, distance: int): int
  {
    if last == 0 then start else Max(start, last + distance)
  }

  /**
   * `Random.nextLong(0, bound)` for the random draw `raw`: a number in `[0, bound)`, None where
   * Kotlin throws IllegalArgumentException because the range is empty.
   */
  function NextLong(raw: int, bound: int): (r: Option<int>)
    ensures r.Some? <==> bound > 0
    ensures r.Some? ==> 0 <= r.value < bound
  {
    if bound <= 0 then None else Some(raw % bound)
  }

  /**
   * The spacing a widget trigger asks for, as the planner computes it: the distance and the
   * tolerance in milliseconds (with the source's integer widths), and whether a tolerance is set.
   */
  datatype Spacing = Spacing(distance: int, hasTolerance: bool, tolerance: int)

  function SpacingOf(w: WidgetConfig): Spacing
  {
    Spacing(DistanceMs(w), w.randomToleranceMinutes != 0, ToleranceMs(w))
  }

  /**
   * The time planned in one bucket: Some(None) when the bucket is skipped, None when the
   * random offset cannot be drawn, else the time.
   */
  function SlotTime(sp: Spacing, s: Slot, last: int, raw: int): Option<Option<int>>
  {
    var earliest := Earliest(last, s.start, sp.distance);
    if earliest > s.end then Some(None)
    else if !sp.hasTolerance then Some(Some(Min(earliest, s.end)))
    else
      var window := s.end - earliest;
      if window <= 0 then Some(Some(Min(earliest, s.end)))
      else
        match NextLong(raw, Min(window, sp.tolerance) + 1)
        case None => None
        case Some(offset) => Some(Some(Min(earliest + offset, s.end)))
  }

  /**
   * One bucket: skipped exactly when its earliest time is past its end; otherwise the time lies
   * between the earliest time and the end, within the tolerance of the earliest time, and is the
   * earliest time itself when the tolerance is zero. Only a negative tolerance makes it throw.
   */
  lemma SlotTimeBounds(sp: Spacing, s: Slot, last: int, raw: int)
    ensures var r := SlotTime(sp, s, last, raw);
      var earliest := Earliest(last, s.start, sp.distance);
      && (r == Some(None) <==> earliest > s.end)
      && (r.Some? && r.value.Some? ==> earliest <= r.value.value <= s.end)
      && (r.Some? && r.value.Some? && sp.hasTolerance && sp.tolerance >= 0 ==>
            r.value.value <= earliest + sp.tolerance)
      && (r.Some? && r.value.Some? && !sp.hasTolerance ==> r.value.value == earliest)
      && (r.None? ==> sp.hasTolerance && sp.tolerance < 0)
  {
  }

  /** A tolerance between 0 and 35 791 394 minutes never makes the random range empty. */
  lemma SlotTimeDefined(w: WidgetConfig, s: Slot, last: int, raw: int)
    requires 0 <= w.randomToleranceMinutes <= 35791394
    ensures SlotTime(SpacingOf(w), s, last, raw).Some?
  {
    LongMinutesExact(w.randomToleranceMinutes);
  }

  /**
   * The notification planned for a bucket; `addedAt` is the clock reading `now`. The source's
   * constructor call passes no `updatedAt`; the model takes `now` for it too.
   */
  function PlannedNotification(tr: WidgetTrigger, bucket: string, time: int, uid: int, now: int): NotificationTrigger
  {
    var w := tr.config.widget;
    NotificationTrigger(uid, now, w.name, Planned, time, w.priority, bucket, w.modality, w.source,
      tr.questionnaireId, tr.json, None, None, None, None, now)
  }

  /** Prefixes `done` to a result that may have failed. */
  function Prepend(done: seq<NotificationTrigger>, r: Option<seq<NotificationTrigger>>): Option<seq<NotificationTrigger>>
  {
    match r
    case None => None
    case Some(rest) => Some(done + rest)
  }

  /** Prefixing nothing changes nothing; two prefixes make one. */
  lemma PrependLaws(a: seq<NotificationTrigger>, b: seq<NotificationTrigger>, r: Option<seq<NotificationTrigger>>)
    ensures Prepend([], r) == r
    ensures Prepend(a, Prepend(b, r)) == Prepend(a + b, r)
  {
    if r.Some? {
      assert [] + r.value == r.value;
      assert a + (b + r.value) == (a + b) + r.value;
    }
  }

  /** One step of PlanSlots: the first bucket is skipped, fails the plan, or yields a notification. */
  lemma PlanSlotsStep(tr: WidgetTrigger, slots: seq<Slot>, last: int, draws: DayDraws, k: nat, now: int)
    requires |slots| > 0
    ensures var step := SlotTime(SpacingOf(tr.config.widget), slots[0], last, draws(k).offset);
      var plan := PlanSlots(tr, slots, last, draws, k, now);
      && (step == None ==> plan == None)
      && (step == Some(None) ==> plan == PlanSlots(tr, slots[1..], last, draws, k + 1, now))
      && (step.Some? && step.value.Some? ==>
            plan == Prepend([PlannedNotification(tr, slots[0].name, step.value.value, draws(k).uid, now)],
                            PlanSlots(tr, slots[1..], step.value.value, draws, k + 1, now)))
  {
  }

  /**
   * The notifications planned for the sorted buckets `slots`, the last one planned so far being
   * at `last` (0 for none), the bucket at position k drawing `draws(k)`.
   */
  function PlanSlots(tr: WidgetTrigger, slots: seq<Slot>, last: int, draws: DayDraws, k: nat, now: int)
    : Option<seq<NotificationTrigger>>
    decreases |slots|
  {
    if |slots| == 0 then Some([])
    else
      match SlotTime(SpacingOf(tr.config.widget), slots[0], last, draws(k).offset)
      case None => None
      case Some(None) => PlanSlots(tr, slots[1..], last, draws, k + 1, now)
      case Some(Some(t)) =>
        Prepend([PlannedNotification(tr, slots[0].name, t, draws(k).uid, now)],
                PlanSlots(tr, slots[1..], t, draws, k + 1, now))
  }

  /** A notification lies in one of `slots`: it carries the slot's name and a time inside it. */
  predicate InSlots(slots: seq<Slot>, n: NotificationTrigger)
  {
    exists m :: 0 <= m < |slots| && slots[m].name == n.timeBucket && slots[m].start <= n.validFrom <= slots[m].end
  }

  lemma InSlotsTail(slots: seq<Slot>, n: NotificationTrigger)
    requires |slots| > 0 && InSlots(slots[1..], n)
    ensures InSlots(slots, n)
  {
    var m :| 0 <= m < |slots[1..]| && slots[1..][m].name == n.timeBucket
             && slots[1..][m].start <= n.validFrom <= slots[1..][m].end;
    assert slots[m + 1] == slots[1..][m];
  }

  /** A notification planned by `tr` for a time and bucket. */
  predicate PlannedBy(tr: WidgetTrigger, n: NotificationTrigger)
  {
    n.status == Planned && n.name == tr.config.widget.name && n.questionnaireId == tr.questionnaireId
    && n.priority == tr.config.widget.priority && n.modality == tr.config.widget.modality
  }

  /**
   * Every notification of a plan is a Planned notification of the trigger lying inside one of the
   * buckets, and there is at most one per bucket.
   */
  lemma {:induction false} PlanSlotsPlaced(tr: WidgetTrigger, slots: seq<Slot>, last: int, draws: DayDraws, k: nat, now: int)
    ensures var r := PlanSlots(tr, slots, last, draws, k, now);
      r.Some? ==> |r.value| <= |slots| && forall j :: 0 <= j < |r.value| ==> PlannedBy(tr, r.value[j]) && InSlots(slots, r.value[j])
    decreases |slots|
  {
    if |slots| > 0 {
      var sp := SpacingOf(tr.config.widget);
      var step := SlotTime(sp, slots[0], last, draws(k).offset);
      SlotTimeBounds(sp, slots[0], last, draws(k).offset);
      if step.Some? {
        var next := if step.value.Some? then step.value.value else last;
        PlanSlotsPlaced(tr, slots[1..], next, draws, k + 1, now);
        var rest := PlanSlots(tr, slots[1..], next, draws, k + 1, now);
        if rest.Some? {
          forall j | 0 <= j < |rest.value|
            ensures InSlots(slots, rest.value[j])
          {
            InSlotsTail(slots, rest.value[j]);
          }
          if step.value.Some? {
            var r := PlanSlots(tr, slots, last, draws, k, now).value;
            assert r[0].timeBucket == slots[0].name;
            assert forall j :: 1 <= j < |r| ==> r[j] == rest.value[j - 1];
          }
        }
      }
    }
  }

  /**
   * Consecutive notifications of a plan are at least the distance apart, and the first is at least
   * the distance after the last one planned before (a time of 0 counts as none).
   */
  lemma {:induction false} PlanSlotsSpaced(tr: WidgetTrigger, slots: seq<Slot>, last: int, draws: DayDraws, k: nat, now: int)
    ensures var r := PlanSlots(tr, slots, last, draws, k, now);
      var distance := DistanceMs(tr.config.widget);
      && (r.Some? && |r.value| > 0 && last != 0 ==> r.value[0].validFrom >= last + distance)
      && (r.Some? ==> forall j :: 0 < j < |r.value| && r.value[j - 1].validFrom != 0 ==>
            r.value[j].validFrom >= r.value[j - 1].validFrom + distance)
    decreases |slots|
  {
    if |slots| > 0 {
      var sp := SpacingOf(tr.config.widget);
      var step := SlotTime(sp, slots[0], last, draws(k).offset);
      SlotTimeBounds(sp, slots[0], last, draws(k).offset);
      if step.Some? {
        var next := if step.value.Some? then step.value.value else last;
        PlanSlotsSpaced(tr, slots[1..], next, draws, k + 1, now);
        var rest := PlanSlots(tr, slots[1..], next, draws, k + 1, now);
        if rest.Some? && step.value.Some? {
          var r := PlanSlots(tr, slots, last, draws, k, now).value;
          assert r[0].validFrom == next;
          assert forall j :: 1 <= j < |r| ==> r[j] == rest.value[j - 1];
        }
      }
    }
  }

  /**
   * Without a tolerance the plan ignores the random draws: each time is the bucket's earliest
   * time, whatever was drawn.
   */
  lemma {:induction false} PlanSlotsNoTolerance(tr: WidgetTrigger, slots: seq<Slot>, last: int, draws: DayDraws,
                                                 other: DayDraws, k: nat, now: int)
    requires tr.config.widget.randomToleranceMinutes == 0
    requires forall i :: draws(i).uid == other(i).uid
    ensures PlanSlots(tr, slots, last, draws, k, now) == PlanSlots(tr, slots, last, other, k, now)
    decreases |slots|
  {
    if |slots| > 0 {
      var sp := SpacingOf(tr.config.widget);
      assert SlotTime(sp, slots[0], last, draws(k).offset) == SlotTime(sp, slots[0], last, other(k).offset);
      var step := SlotTime(sp, slots[0], last, draws(k).offset);
      var next := if step.Some? && step.value.Some? then step.value.value else last;
      PlanSlotsNoTolerance(tr, slots[1..], next, draws, other, k + 1, now);
    }
  }

  /** A tolerance between 0 and 35 791 394 minutes never makes planning fail. */
  lemma {:induction false} PlanSlotsDefined(tr: WidgetTrigger, slots: seq<Slot>, last: int, draws: DayDraws, k: nat, now: int)
    requires 0 <= tr.config.widget.randomToleranceMinutes <= 35791394
    ensures PlanSlots(tr, slots, last, draws, k, now).Some?
    decreases |slots|
  {
    if |slots| > 0 {
      SlotTimeDefined(tr.config.widget, slots[0], last, draws(k).offset);
      var step := SlotTime(SpacingOf(tr.config.widget), slots[0], last, draws(k).offset);
      var next := if step.value.Some? then step.value.value else last;
      PlanSlotsDefined(tr, slots[1..], next, draws, k + 1, now);
    }
  }

  /** planNotificationsForDay as a function: parse the buckets on `day`, sort them by start, plan. */
  function PlanDay(tr: WidgetTrigger, day: int, draws: DayDraws, now: int): Option<seq<NotificationTrigger>>
  {
    match SlotsOf(tr.config.widget.timeBuckets, day)
    case None => None
    case Some(slots) => PlanSlots(tr, SortBy(slots, SlotStart), 0, draws, 0, now)
  }

  /** A notification lies in one of `buckets` as read on `day`. */
  predicate InBucketOn(buckets: seq<string>, day: int, n: NotificationTrigger)
  {
    exists b :: 0 <= b < |buckets| && buckets[b] == n.timeBucket
      && BucketedWidget.ParseTimebucket(buckets[b], day).Some?
      && BucketedWidget.ParseTimebucket(buckets[b], day).value.0 <= n.validFrom
      && n.validFrom <= BucketedWidget.ParseTimebucket(buckets[b], day).value.1
  }

  lemma SortedSlotInBucket(buckets: seq<string>, day: int, slots: seq<Slot>, n: NotificationTrigger)
    requires SlotsOf(buckets, day) == Some(slots)
    requires InSlots(SortBy(slots, SlotStart), n)
    ensures InBucketOn(buckets, day, n)
  {
    SortByPermutes(slots, SlotStart);
    InSlotsPermuted(slots, SortBy(slots, SlotStart), n);
    SlotsOfSpec(buckets, day);
    var b :| 0 <= b < |slots| && slots[b].name == n.timeBucket && slots[b].start <= n.validFrom <= slots[b].end;
    assert buckets[b] == n.timeBucket;
  }

  /** A notification in one of the slots of a reordering is in one of the original slots. */
  lemma InSlotsPermuted(slots: seq<Slot>, sorted: seq<Slot>, n: NotificationTrigger)
    requires multiset(sorted) == multiset(slots)
    requires InSlots(sorted, n)
    ensures InSlots(slots, n)
  {
    var m :| 0 <= m < |sorted| && sorted[m].name == n.timeBucket && sorted[m].start <= n.validFrom <= sorted[m].end;
    assert sorted[m] in multiset(sorted);
    var b :| 0 <= b < |slots| && slots[b] == sorted[m];
  }

  /**
   * One day's plan: every notification is a Planned notification of the trigger inside one of its
   * buckets on that day, at most one per bucket, spaced by the distance; it fails only when a
   * bucket does not parse or the tolerance is outside 0 .. 35 791 394 minutes.
   */
  lemma PlanDayPlaced(tr: WidgetTrigger, day: int, draws: DayDraws, now: int)
    ensures var r := PlanDay(tr, day, draws, now);
      var w := tr.config.widget;
      && (r.Some? ==> |r.value| <= |w.timeBuckets|)
      && (r.Some? ==> forall j :: 0 <= j < |r.value| ==> PlannedBy(tr, r.value[j]) && InBucketOn(w.timeBuckets, day, r.value[j]))
      && (r.Some? ==> forall j :: 0 < j < |r.value| && r.value[j - 1].validFrom != 0 ==>
            r.value[j].validFrom >= r.value[j - 1].validFrom + DistanceMs(w))
      && (r.None? && 0 <= w.randomToleranceMinutes <= 35791394 ==>
            exists b :: 0 <= b < |w.timeBuckets| && BucketedWidget.ParseTimebucket(w.timeBuckets[b], day).None?)
  {
    var w := tr.config.widget;
    var parsed := SlotsOf(w.timeBuckets, day);
    SlotsOfSpec(w.timeBuckets, day);
    if parsed.Some? {
      var sorted := SortBy(parsed.value, SlotStart);
      SortByPermutes(parsed.value, SlotStart);
      PlanSlotsPlaced(tr, sorted, 0, draws, 0, now);
      PlanSlotsSpaced(tr, sorted, 0, draws, 0, now);
      if 0 <= w.randomToleranceMinutes <= 35791394 {
        PlanSlotsDefined(tr, sorted, 0, draws, 0, now);
      }
      var r := PlanSlots(tr, sorted, 0, draws, 0, now);
      if r.Some? {
        assert |sorted| == |parsed.value| by {
          assert |multiset(sorted)| == |multiset(parsed.value)|;
        }
        forall j | 0 <= j < |r.value|
          ensures InBucketOn(w.timeBuckets, day, r.value[j])
        {
          SortedSlotInBucket(w.timeBuckets, day, parsed.value, r.value[j]);
        }
      }
    }
  }

  /**
   * planNotificationsForDay: one notification per bucket that can still fit, in order of bucket
   * start, each at least the trigger's distance after the one before.
   */
  method PlanNotificationsForDay(tr: WidgetTrigger, day: int, draws: DayDraws, now: int)
    returns (r: Option<seq<NotificationTrigger>>)
    ensures r == PlanDay(tr, day, draws, now)
  {
    var parsed := SlotsOf(tr.config.widget.timeBuckets, day);
    if parsed.None? {
      return None;
    }
    var sortedBuckets := SortBy(parsed.value, SlotStart);
    r := PlanSortedBuckets(tr, sortedBuckets, draws, now);
  }

  /**
   * The body of planNotificationsForDay's loop for one bucket: Some(None) to skip it, None when
   * the random offset cannot be drawn, else the time of its notification.
   */
  method NotificationTimeInBucket(spacing: Spacing, bucket: Slot, lastNotificationTime: int, raw: int)
    returns (r: Option<Option<int>>)
    ensures r == SlotTime(spacing, bucket, lastNotificationTime, raw)
  {
    var earliestTime := Earliest(lastNotificationTime, bucket.start, spacing.distance);
    if earliestTime > bucket.end {
      return Some(None);
    }
    var notificationTime;
    if !spacing.hasTolerance {
      notificationTime := earliestTime;
    } else {
      var availableWindow := bucket.end - earliestTime;
      if availableWindow <= 0 {
        notificationTime := earliestTime;
      } else {
        var maxRandomOffset := Min(availableWindow, spacing.tolerance);
        var randomOffset := NextLong(raw, maxRandomOffset + 1);
        if randomOffset.None? {
          return None;
        }
        notificationTime := earliestTime + randomOffset.value;
      }
    }
    var finalNotificationTime := Min(notificationTime, bucket.end);
    return Some(Some(finalNotificationTime));
  }

  /** The loop of planNotificationsForDay over the buckets, sorted by start. */
  method PlanSortedBuckets(tr: WidgetTrigger, sortedBuckets: seq<Slot>, draws: DayDraws, now: int)
    returns (r: Option<seq<NotificationTrigger>>)
    ensures r == PlanSlots(tr, sortedBuckets, 0, draws, 0, now)
  {
    var spacing := SpacingOf(tr.config.widget);
    ghost var plan := PlanSlots(tr, sortedBuckets, 0, draws, 0, now);
    var notifications: seq<NotificationTrigger> := [];
    var lastNotificationTime := 0;
    var i := 0;
    assert sortedBuckets[i..] == sortedBuckets;
    PrependLaws([], [], plan);
    while i < |sortedBuckets|
      invariant 0 <= i <= |sortedBuckets|
      invariant plan == Prepend(notifications, PlanSlots(tr, sortedBuckets[i..], lastNotificationTime, draws, i, now))
    {
      var bucket := sortedBuckets[i];
      assert sortedBuckets[i..][0] == bucket && sortedBuckets[i..][1..] == sortedBuckets[i + 1..];
      PlanSlotsStep(tr, sortedBuckets[i..], lastNotificationTime, draws, i, now);
      var time := NotificationTimeInBucket(spacing, bucket, lastNotificationTime, draws(i).offset);
      if time.None? {
        return None;
      }
      if time.value.None? {
        i := i + 1;
        continue;
      }
      var planned := PlannedNotification(tr, bucket.name, time.value.value, draws(i).uid, now);
      PrependLaws(notifications, [planned], PlanSlots(tr, sortedBuckets[i + 1..], time.value.value, draws, i + 1, now));
      notifications := notifications + [planned];
      lastNotificationTime := time.value.value;
      i := i + 1;
    }
    assert notifications + [] == notifications;
    return Some(notifications);
  }

  /**
   * The days from `day` while not past `studyEnd`, one day apart, planned in turn; the d-th day
   * draws `draws(d)`.
   */
  function PlanDays(tr: WidgetTrigger, day: int, studyEnd: int, draws: nat -> DayDraws, d: nat, now: int)
    : Option<seq<NotificationTrigger>>
    decreases studyEnd - day
  {
    if day > studyEnd then Some([])
    else
      match PlanDay(tr, day, draws(d), now)
      case None => None
      case Some(ns) => Prepend(ns, PlanDays(tr, day + Clock.MsPerDay, studyEnd, draws, d + 1, now))
  }

  /**
   * One day of planNotificationsForTrigger: a day that fails fails the whole plan, otherwise its
   * notifications join the ones planned so far.
   */
  lemma PlanDaysStep(tr: WidgetTrigger, day: int, studyEnd: int, draws: nat -> DayDraws, d: nat, now: int,
                     plan: Option<seq<NotificationTrigger>>, done: seq<NotificationTrigger>,
                     first: Option<seq<NotificationTrigger>>)
    requires day <= studyEnd
    requires plan == Prepend(done, PlanDays(tr, day, studyEnd, draws, d, now))
    requires first == PlanDay(tr, day, draws(d), now)
    ensures first.None? ==> plan == None
    ensures first.Some? ==>
      plan == Prepend(done + first.value, PlanDays(tr, day + Clock.MsPerDay, studyEnd, draws, d + 1, now))
  {
    if first.Some? {
      PrependLaws(done, first.value, PlanDays(tr, day + Clock.MsPerDay, studyEnd, draws, d + 1, now));
    }
  }

  /** planNotificationsForTrigger: the plans of every day from `emaStart` to `studyEnd`, in order. */
  method PlanNotificationsForTrigger(tr: WidgetTrigger, emaStart: int, studyEnd: int, draws: nat -> DayDraws, now: int)
    returns (r: Option<seq<NotificationTrigger>>)
    ensures r == PlanDays(tr, emaStart, studyEnd, draws, 0, now)
  {
    var notifications: seq<NotificationTrigger> := [];
    var dayIterator := emaStart;
    var d: nat := 0;
    PrependLaws([], [], PlanDays(tr, emaStart, studyEnd, draws, 0, now));
    while dayIterator <= studyEnd
      invariant PlanDays(tr, emaStart, studyEnd, draws, 0, now) == Prepend(notifications, PlanDays(tr, dayIterator, studyEnd, draws, d, now))
      decreases studyEnd - dayIterator
    {
      var planned := PlanNotificationsForDay(tr, dayIterator, draws(d), now);
      PlanDaysStep(tr, dayIterator, studyEnd, draws, d, now, PlanDays(tr, emaStart, studyEnd, draws, 0, now), notifications, planned);
      if planned.None? {
        return None;
      }
      notifications := notifications + planned.value;
      dayIterator := dayIterator + Clock.MsPerDay;
      d := d + 1;
    }
    assert notifications + [] == notifications;
    return Some(notifications);
  }

  /** The day `e` days after `day`. */
  function NthDay(day: int, e: nat): int
  {
    day + e * Clock.MsPerDay
  }

  /** A notification lies in one of the trigger's buckets on a day from `day` to `studyEnd`. */
  ghost predicate OnSomeDay(tr: WidgetTrigger, day: int, studyEnd: int, n: NotificationTrigger)
  {
    exists e: nat :: NthDay(day, e) <= studyEnd && InBucketOn(tr.config.widget.timeBuckets, NthDay(day, e), n)
  }

  lemma OnSomeDayLater(tr: WidgetTrigger, day: int, studyEnd: int, n: NotificationTrigger)
    requires OnSomeDay(tr, day + Clock.MsPerDay, studyEnd, n)
    ensures OnSomeDay(tr, day, studyEnd, n)
  {
    var e: nat :| NthDay(day + Clock.MsPerDay, e) <= studyEnd
                  && InBucketOn(tr.config.widget.timeBuckets, NthDay(day + Clock.MsPerDay, e), n);
    assert NthDay(day, e + 1) == NthDay(day + Clock.MsPerDay, e);
  }

  lemma OnSomeDayToday(tr: WidgetTrigger, day: int, studyEnd: int, n: NotificationTrigger)
    requires day <= studyEnd && InBucketOn(tr.config.widget.timeBuckets, day, n)
    ensures OnSomeDay(tr, day, studyEnd, n)
  {
    assert NthDay(day, 0) == day;
  }

  /** A day's plan followed by the later days' plans lies on the days from `day` on. */
  lemma PlacedConcat(tr: WidgetTrigger, day: int, studyEnd: int, first: seq<NotificationTrigger>, rest: seq<NotificationTrigger>)
    requires day <= studyEnd
    requires forall m :: 0 <= m < |first| ==> PlannedBy(tr, first[m]) && InBucketOn(tr.config.widget.timeBuckets, day, first[m])
    requires forall m :: 0 <= m < |rest| ==> PlannedBy(tr, rest[m]) && OnSomeDay(tr, day + Clock.MsPerDay, studyEnd, rest[m])
    ensures forall j :: 0 <= j < |first + rest| ==> PlannedBy(tr, (first + rest)[j]) && OnSomeDay(tr, day, studyEnd, (first + rest)[j])
  {
    var r := first + rest;
    forall j | 0 <= j < |r|
      ensures PlannedBy(tr, r[j]) && OnSomeDay(tr, day, studyEnd, r[j])
    {
      if j < |first| {
        assert r[j] == first[j];
        OnSomeDayToday(tr, day, studyEnd, r[j]);
      } else {
        assert r[j] == rest[j - |first|];
        OnSomeDayLater(tr, day, studyEnd, r[j]);
      }
    }
  }

  /**
   * Every notification planned for a trigger is a Planned notification of it, inside one of its
   * buckets on one of the days from `day` to `studyEnd`.
   */
  lemma {:induction false} PlanDaysPlaced(tr: WidgetTrigger, day: int, studyEnd: int, draws: nat -> DayDraws, d: nat, now: int)
    ensures var r := PlanDays(tr, day, studyEnd, draws, d, now);
      r.Some? ==> forall j :: 0 <= j < |r.value| ==> PlannedBy(tr, r.value[j]) && OnSomeDay(tr, day, studyEnd, r.value[j])
    decreases studyEnd - day
  {
    if day <= studyEnd {
      var first := PlanDay(tr, day, draws(d), now);
      var rest := PlanDays(tr, day + Clock.MsPerDay, studyEnd, draws, d + 1, now);
      if first.Some? && rest.Some? {
        var r := first.value + rest.value;
        assert PlanDays(tr, day, studyEnd, draws, d, now) == Some(r);
        assert forall m :: 0 <= m < |first.value| ==>
                 PlannedBy(tr, first.value[m]) && InBucketOn(tr.config.widget.timeBuckets, day, first.value[m]) by {
          PlanDayPlaced(tr, day, draws(d), now);
        }
        assert forall m :: 0 <= m < |rest.value| ==>
                 PlannedBy(tr, rest.value[m]) && OnSomeDay(tr, day + Clock.MsPerDay, studyEnd, rest.value[m]) by {
          PlanDaysPlaced(tr, day + Clock.MsPerDay, studyEnd, draws, d + 1, now);
        }
        PlacedConcat(tr, day, studyEnd, first.value, rest.value);
      }
    }
  }

  // ---------------------------------------------------------------------------------------------
  // scheduleAllNotificationsWithTimeout

  function InPhase(phaseName: string): WidgetTrigger -> bool
  {
    (t: WidgetTrigger) => t.config.widget.phaseName == phaseName
  }

  function IsScheduled(t: WidgetTrigger): bool
  {
    t.config.widget.source == Scheduled
  }

  /** `it.id == timeoutNotificationTriggerId`, which never holds for a missing id. */
  function HasId(id: Option<int>): WidgetTrigger -> bool
  {
    (t: WidgetTrigger) => id == Some(t.id)
  }

  /** The timeout twins of `planned`, in order; the j-th gets the UUID `uids(j)`. */
  function Timeouts(planned: seq<NotificationTrigger>, timeout: WidgetTrigger, uids: nat -> int): (r: seq<NotificationTrigger>)
    ensures |r| == |planned|
    ensures forall j :: 0 <= j < |r| ==> r[j] == ApplyTimeoutTrigger(planned[j], timeout, uids(j))
  {
    seq(|planned|, (j: int) requires 0 <= j < |planned| => ApplyTimeoutTrigger(planned[j], timeout, uids(j)))
  }

  /** What one trigger adds: its plan, then the timeout twins when its timeout trigger exists. */
  function WithTimeouts(all: seq<WidgetTrigger>, tr: WidgetTrigger, planned: seq<NotificationTrigger>, uids: nat -> int)
    : seq<NotificationTrigger>
  {
    match Find(all, HasId(tr.config.widget.timeoutNotificationTriggerId))
    case None => planned
    case Some(timeout) => planned + Timeouts(planned, timeout, uids)
  }

  /**
   * The loop of scheduleAllNotificationsWithTimeout over the triggers `todo` still to schedule;
   * the k-th draws `draws(k)` for planning and `uids(k)` for its timeout twins.
   */
  function ScheduleFrom(all: seq<WidgetTrigger>, todo: seq<WidgetTrigger>, startDay: int, endDay: int,
                        draws: nat -> nat -> DayDraws, uids: nat -> nat -> int, k: nat, now: int)
    : Option<seq<NotificationTrigger>>
    decreases |todo|
  {
    if |todo| == 0 then Some([])
    else
      match PlanDays(todo[0], startDay, endDay, draws(k), 0, now)
      case None => None
      case Some(planned) =>
        Prepend(WithTimeouts(all, todo[0], planned, uids(k)),
                ScheduleFrom(all, todo[1..], startDay, endDay, draws, uids, k + 1, now))
  }

  /** The triggers scheduleAllNotificationsWithTimeout plans: those of the phase with source Scheduled. */
  function ToBeScheduled(all: seq<WidgetTrigger>, phaseName: string): seq<WidgetTrigger>
  {
    Filter(Filter(all, InPhase(phaseName)), IsScheduled)
  }

  /** scheduleAllNotificationsWithTimeout as a function. */
  function ScheduleAll(all: seq<WidgetTrigger>, startDay: int, endDay: int, phaseName: string,
                       draws: nat -> nat -> DayDraws, uids: nat -> nat -> int, now: int): Option<seq<NotificationTrigger>>
  {
    ScheduleFrom(all, ToBeScheduled(all, phaseName), startDay, endDay, draws, uids, 0, now)
  }

  /**
   * One trigger of scheduleAllNotificationsWithTimeout: a trigger whose plan fails fails the whole
   * schedule, otherwise its notifications and their twins join the ones scheduled so far.
   */
  lemma ScheduleFromStep(all: seq<WidgetTrigger>, todo: seq<WidgetTrigger>, startDay: int, endDay: int,
                         draws: nat -> nat -> DayDraws, uids: nat -> nat -> int, k: nat, now: int,
                         plan: Option<seq<NotificationTrigger>>, done: seq<NotificationTrigger>,
                         first: Option<seq<NotificationTrigger>>)
    requires |todo| > 0
    requires plan == Prepend(done, ScheduleFrom(all, todo, startDay, endDay, draws, uids, k, now))
    requires first == PlanDays(todo[0], startDay, endDay, draws(k), 0, now)
    ensures first.None? ==> plan == None
    ensures first.Some? ==>
      plan == Prepend(done + WithTimeouts(all, todo[0], first.value, uids(k)),
                      ScheduleFrom(all, todo[1..], startDay, endDay, draws, uids, k + 1, now))
  {
    if first.Some? {
      PrependLaws(done, WithTimeouts(all, todo[0], first.value, uids(k)),
                  ScheduleFrom(all, todo[1..], startDay, endDay, draws, uids, k + 1, now));
    }
  }

  /** What a trigger adds, given the result of looking up its timeout trigger. */
  lemma WithFoundTimeout(all: seq<WidgetTrigger>, tr: WidgetTrigger, before: seq<NotificationTrigger>,
                         planned: seq<NotificationTrigger>, uids: nat -> int, timeout: Option<WidgetTrigger>)
    requires timeout == Find(all, HasId(tr.config.widget.timeoutNotificationTriggerId))
    ensures timeout.None? ==> before + planned == before + WithTimeouts(all, tr, planned, uids)
    ensures timeout.Some? ==>
      before + planned + Timeouts(planned, timeout.value, uids) == before + WithTimeouts(all, tr, planned, uids)
  {
    if timeout.Some? {
      assert before + planned + Timeouts(planned, timeout.value, uids) == before + (planned + Timeouts(planned, timeout.value, uids));
    }
  }

  /** The inner loop of scheduleAllNotificationsWithTimeout: appends the timeout twin of each notification. */
  method AppendTimeouts(allNotifications: seq<NotificationTrigger>, planned: seq<NotificationTrigger>,
                        timeoutTrigger: WidgetTrigger, uids: nat -> int)
    returns (r: seq<NotificationTrigger>)
    ensures r == allNotifications + Timeouts(planned, timeoutTrigger, uids)
  {
    r := allNotifications;
    var j := 0;
    while j < |planned|
      invariant 0 <= j <= |planned|
      invariant r == allNotifications + Timeouts(planned[..j], timeoutTrigger, uids)
    {
      var timeoutNotification := ApplyTimeoutTrigger(planned[j], timeoutTrigger, uids(j));
      assert Timeouts(planned[..j + 1], timeoutTrigger, uids) == Timeouts(planned[..j], timeoutTrigger, uids) + [timeoutNotification];
      r := r + [timeoutNotification];
      j := j + 1;
    }
    assert planned[..j] == planned;
  }

  /**
   * scheduleAllNotificationsWithTimeout: plans every trigger of the phase with source Scheduled
   * over the days from `startDay` to `endDay`, each followed by the timeout twins of its
   * notifications when its timeout trigger is among `triggers`.
   */
  method ScheduleAllNotificationsWithTimeout(triggers: seq<WidgetTrigger>, startDay: int, endDay: int, phaseName: string,
                                             draws: nat -> nat -> DayDraws, uids: nat -> nat -> int, now: int)
    returns (r: Option<seq<NotificationTrigger>>)
    ensures r == ScheduleAll(triggers, startDay, endDay, phaseName, draws, uids, now)
  {
    var triggersToBeScheduled := Filter(Filter(triggers, InPhase(phaseName)), IsScheduled);
    ghost var plan := ScheduleFrom(triggers, triggersToBeScheduled, startDay, endDay, draws, uids, 0, now);
    var allNotifications: seq<NotificationTrigger> := [];
    PrependLaws([], [], plan);
    var k: nat := 0;
    assert triggersToBeScheduled[k..] == triggersToBeScheduled;
    while k < |triggersToBeScheduled|
      invariant 0 <= k <= |triggersToBeScheduled|
      invariant plan == Prepend(allNotifications, ScheduleFrom(triggers, triggersToBeScheduled[k..], startDay, endDay, draws, uids, k, now))
    {
      var trigger := triggersToBeScheduled[k];
      assert triggersToBeScheduled[k..][0] == trigger && triggersToBeScheduled[k..][1..] == triggersToBeScheduled[k + 1..];
      var plannedNotifications := PlanNotificationsForTrigger(trigger, startDay, endDay, draws(k), now);
      ScheduleFromStep(triggers, triggersToBeScheduled[k..], startDay, endDay, draws, uids, k, now,
                       plan, allNotifications, plannedNotifications);
      if plannedNotifications.None? {
        return None;
      }
      var planned := plannedNotifications.value;
      ghost var before := allNotifications;
      allNotifications := allNotifications + planned;
      var timeoutTrigger := Find(triggers, HasId(trigger.config.widget.timeoutNotificationTriggerId));
      WithFoundTimeout(triggers, trigger, before, planned, uids(k), timeoutTrigger);
      if timeoutTrigger.Some? {
        allNotifications := AppendTimeouts(allNotifications, planned, timeoutTrigger.value, uids(k));
      }
      k := k + 1;
    }
    assert allNotifications + [] == allNotifications;
    return Some(allNotifications);
  }

  /**
   * The timeout twins: with no timeout trigger a trigger adds just its plan; with one, each
   * planned notification is followed, after the whole plan, by a twin in the same bucket with the
   * same status, the timeout trigger's delay later.
   */
  lemma TimeoutTwins(all: seq<WidgetTrigger>, tr: WidgetTrigger, planned: seq<NotificationTrigger>, uids: nat -> int)
    ensures var timeout := Find(all, HasId(tr.config.widget.timeoutNotificationTriggerId));
      var added := WithTimeouts(all, tr, planned, uids);
      && (timeout.None? ==> added == planned)
      && (timeout.Some? ==>
            && Some(timeout.value.id) == tr.config.widget.timeoutNotificationTriggerId
            && timeout.value in all
            && |added| == 2 * |planned| && added[..|planned|] == planned
            && forall j :: 0 <= j < |planned| ==>
                 && added[|planned| + j].timeBucket == planned[j].timeBucket
                 && added[|planned| + j].status == planned[j].status
                 && added[|planned| + j].validFrom == planned[j].validFrom + DelayMs(timeout.value.config.widget))
  {
    var timeout := Find(all, HasId(tr.config.widget.timeoutNotificationTriggerId));
    if timeout.Some? {
      var added := WithTimeouts(all, tr, planned, uids);
      var twins := Timeouts(planned, timeout.value, uids);
      assert added == planned + twins;
      assert forall j :: 0 <= j < |planned| ==> added[|planned| + j] == twins[j];
    }
  }

  /**
   * A notification scheduled for `tr`: either planned by it inside one of its buckets on a day of
   * the range, or the twin of such a notification from `tr`'s timeout trigger, shifted by that
   * trigger's delay.
   */
  ghost predicate ScheduledBy(all: seq<WidgetTrigger>, tr: WidgetTrigger, startDay: int, endDay: int, n: NotificationTrigger)
  {
    || (PlannedBy(tr, n) && OnSomeDay(tr, startDay, endDay, n))
    || exists m :: 0 <= m < |all| && tr.config.widget.timeoutNotificationTriggerId == Some(all[m].id)
         && n.status == Planned && n.name == all[m].config.widget.name
         && n.questionnaireId == all[m].questionnaireId
         && OnSomeDay(tr, startDay, endDay, n.(validFrom := n.validFrom - DelayMs(all[m].config.widget)))
  }

  /** Being in a bucket on some day depends only on the bucket name and the time. */
  lemma OnSomeDaySameSlot(tr: WidgetTrigger, startDay: int, endDay: int, a: NotificationTrigger, b: NotificationTrigger)
    requires OnSomeDay(tr, startDay, endDay, a)
    requires a.timeBucket == b.timeBucket && a.validFrom == b.validFrom
    ensures OnSomeDay(tr, startDay, endDay, b)
  {
    var e: nat :| NthDay(startDay, e) <= endDay && InBucketOn(tr.config.widget.timeBuckets, NthDay(startDay, e), a);
    assert InBucketOn(tr.config.widget.timeBuckets, NthDay(startDay, e), b);
  }

  /** The timeout twin of a placed notification is scheduled for its trigger. */
  lemma TwinScheduled(all: seq<WidgetTrigger>, tr: WidgetTrigger, startDay: int, endDay: int,
                      p: NotificationTrigger, m: int, uid: int)
    requires PlannedBy(tr, p) && OnSomeDay(tr, startDay, endDay, p)
    requires 0 <= m < |all| && tr.config.widget.timeoutNotificationTriggerId == Some(all[m].id)
    ensures ScheduledBy(all, tr, startDay, endDay, ApplyTimeoutTrigger(p, all[m], uid))
  {
    var n := ApplyTimeoutTrigger(p, all[m], uid);
    OnSomeDaySameSlot(tr, startDay, endDay, p, n.(validFrom := n.validFrom - DelayMs(all[m].config.widget)));
  }

  /** Everything one trigger adds to its placed notifications is scheduled for it. */
  lemma WithTimeoutsScheduled(all: seq<WidgetTrigger>, tr: WidgetTrigger, startDay: int, endDay: int,
                              planned: seq<NotificationTrigger>, uids: nat -> int)
    requires forall j :: 0 <= j < |planned| ==> PlannedBy(tr, planned[j]) && OnSomeDay(tr, startDay, endDay, planned[j])
    ensures var added := WithTimeouts(all, tr, planned, uids);
      forall j :: 0 <= j < |added| ==> ScheduledBy(all, tr, startDay, endDay, added[j])
  {
    var timeout := Find(all, HasId(tr.config.widget.timeoutNotificationTriggerId));
    var added := WithTimeouts(all, tr, planned, uids);
    if timeout.Some? {
      var twins := Timeouts(planned, timeout.value, uids);
      assert added == planned + twins;
      var m :| 0 <= m < |all| && all[m] == timeout.value && HasId(tr.config.widget.timeoutNotificationTriggerId)(all[m]);
      forall j | 0 <= j < |added|
        ensures ScheduledBy(all, tr, startDay, endDay, added[j])
      {
        if j >= |planned| {
          assert added[j] == twins[j - |planned|];
          TwinScheduled(all, tr, startDay, endDay, planned[j - |planned|], m, uids(j - |planned|));
        }
      }
    }
  }

  /** Everything scheduled is scheduled for one of the triggers still to schedule. */
  lemma {:induction false} ScheduleFromScheduled(all: seq<WidgetTrigger>, todo: seq<WidgetTrigger>, startDay: int, endDay: int,
                                                  draws: nat -> nat -> DayDraws, uids: nat -> nat -> int, k: nat, now: int)
    ensures var r := ScheduleFrom(all, todo, startDay, endDay, draws, uids, k, now);
      r.Some? ==> forall j :: 0 <= j < |r.value| ==> ScheduledByOneOf(all, todo, startDay, endDay, r.value[j])
    decreases |todo|
  {
    if |todo| > 0 {
      var first := PlanDays(todo[0], startDay, endDay, draws(k), 0, now);
      var rest := ScheduleFrom(all, todo[1..], startDay, endDay, draws, uids, k + 1, now);
      if first.Some? && rest.Some? {
        assert forall j :: 0 <= j < |rest.value| ==> ScheduledByOneOf(all, todo[1..], startDay, endDay, rest.value[j]) by {
          ScheduleFromScheduled(all, todo[1..], startDay, endDay, draws, uids, k + 1, now);
        }
        PlanDaysPlaced(todo[0], startDay, endDay, draws(k), 0, now);
        WithTimeoutsScheduled(all, todo[0], startDay, endDay, first.value, uids(k));
        ScheduledByConcat(all, todo, startDay, endDay, WithTimeouts(all, todo[0], first.value, uids(k)), rest.value);
      }
    }
  }

  /** A notification scheduled for one of the triggers `todo`. */
  ghost predicate ScheduledByOneOf(all: seq<WidgetTrigger>, todo: seq<WidgetTrigger>, startDay: int, endDay: int,
                                   n: NotificationTrigger)
  {
    exists i :: 0 <= i < |todo| && ScheduledBy(all, todo[i], startDay, endDay, n)
  }

  lemma ScheduledByConcat(all: seq<WidgetTrigger>, todo: seq<WidgetTrigger>, startDay: int, endDay: int,
                          added: seq<NotificationTrigger>, rest: seq<NotificationTrigger>)
    requires |todo| > 0
    requires forall j :: 0 <= j < |added| ==> ScheduledBy(all, todo[0], startDay, endDay, added[j])
    requires forall j :: 0 <= j < |rest| ==> ScheduledByOneOf(all, todo[1..], startDay, endDay, rest[j])
    ensures forall j :: 0 <= j < |added + rest| ==> ScheduledByOneOf(all, todo, startDay, endDay, (added + rest)[j])
  {
    var r := added + rest;
    forall j | 0 <= j < |r|
      ensures ScheduledByOneOf(all, todo, startDay, endDay, r[j])
    {
      if j < |added| {
        assert r[j] == added[j];
        assert ScheduledBy(all, todo[0], startDay, endDay, r[j]);
      } else {
        assert r[j] == rest[j - |added|];
        var i :| 0 <= i < |todo[1..]| && ScheduledBy(all, todo[1..][i], startDay, endDay, r[j]);
        assert todo[1..][i] == todo[i + 1];
        assert ScheduledBy(all, todo[i + 1], startDay, endDay, r[j]);
      }
    }
  }

  /**
   * Only triggers of the phase with source Scheduled are planned: every notification of the
   * schedule is one of theirs or the timeout twin of one of theirs.
   */
  lemma ScheduleAllScheduled(all: seq<WidgetTrigger>, startDay: int, endDay: int, phaseName: string,
                             draws: nat -> nat -> DayDraws, uids: nat -> nat -> int, now: int)
    ensures var r := ScheduleAll(all, startDay, endDay, phaseName, draws, uids, now);
      r.Some? ==> forall j :: 0 <= j < |r.value| ==>
        exists t :: t in all && t.config.widget.phaseName == phaseName && t.config.widget.source == Scheduled
          && ScheduledBy(all, t, startDay, endDay, r.value[j])
  {
    var todo := ToBeScheduled(all, phaseName);
    ScheduleFromScheduled(all, todo, startDay, endDay, draws, uids, 0, now);
    var inPhase := Filter(all, InPhase(phaseName));
    var r := ScheduleAll(all, startDay, endDay, phaseName, draws, uids, now);
    if r.Some? {
      forall j | 0 <= j < |r.value|
        ensures exists t :: (t in all && t.config.widget.phaseName == phaseName && t.config.widget.source == Scheduled
                             && ScheduledBy(all, t, startDay, endDay, r.value[j]))
      {
        var i :| 0 <= i < |todo| && ScheduledBy(all, todo[i], startDay, endDay, r.value[j]);
        assert todo[i] in inPhase && IsScheduled(todo[i]);
        assert todo[i] in all && InPhase(phaseName)(todo[i]);
      }
    }
  }

  /** With no trigger of the phase with source Scheduled, nothing is scheduled. */
  lemma ScheduleAllNothingToDo(all: seq<WidgetTrigger>, startDay: int, endDay: int, phaseName: string,
                               draws: nat -> nat -> DayDraws, uids: nat -> nat -> int, now: int)
    requires forall i :: 0 <= i < |all| ==> all[i].config.widget.phaseName != phaseName || all[i].config.widget.source != Scheduled
    ensures ScheduleAll(all, startDay, endDay, phaseName, draws, uids, now) == Some([])
  {
    var inPhase := Filter(all, InPhase(phaseName));
    assert forall i :: 0 <= i < |inPhase| ==> !IsScheduled(inPhase[i]) by {
      forall i | 0 <= i < |inPhase| ensures !IsScheduled(inPhase[i]) {
        var m :| 0 <= m < |all| && all[m] == inPhase[i];
      }
    }
    FilterNone(inPhase, IsScheduled);
  }
}
