/**
 * The two-hour time buckets of the interaction widget (helpers/BucketedWidget.kt): the fixed list
 * of buckets, finding the bucket of the current hour, and reading a bucket "HH:MM-HH:MM" into the
 * start and end instants on a given day.
 */
module BucketedWidget {
  import opened Wrappers
  import opened Text
  import Clock
  import opened Seqs

  /** The four numbers of a bucket text "HH:MM-HH:MM". */
  datatype BucketTimes = BucketTimes(startHour: int, startMinute: int, endHour: int, endMinute: int)

  /** TIME_BUCKETS */
  const TimeBuckets: seq<string> := [
    "00:00-02:00", "02:00-04:00", "04:00-06:00", "06:00-08:00",
    "08:00-10:00", "10:00-12:00", "12:00-14:00", "14:00-16:00",
    "16:00-18:00", "18:00-20:00", "20:00-22:00", "22:00-23:59"
  ]

  /** What "Unknown" stands for: no bucket holds the hour. */
  const Unknown: string := "Unknown"

  /** A clock time of day: hour 0..23 and minute 0..59. */
  predicate InRange(t: BucketTimes)
  {
    && 0 <= t.startHour < 24 && 0 <= t.startMinute < 60
    && 0 <= t.endHour < 24 && 0 <= t.endMinute < 60
  }

  /** "HH:MM" */
  function ClockText(hour: nat, minute: nat): string
    requires hour < 100 && minute < 100
  {
    TwoDigits(hour) + ":" + TwoDigits(minute)
  }

  /** The text of a bucket, in the format the study configuration and TIME_BUCKETS use. */
  function FormatBucket(t: BucketTimes): string
    requires InRange(t)
  {
    ClockText(t.startHour, t.startMinute) + "-" + ClockText(t.endHour, t.endMinute)
  }

  /**
   * The start and end hour as getCurrentTimeBucket reads them: `split("-")[i].split(":")[0].toInt()`.
   * None where Kotlin throws (a missing "-" or a part that is not a number).
   */
  function HourBounds(bucket: string): Option<(int, int)>
  {
    var halves := Split(bucket, '-');
    if |halves| < 2 then None
    else
      var start := ParseInt(Split(halves[0], ':')[0]);
      var end := ParseInt(Split(halves[1], ':')[0]);
      if start.Some? && end.Some? then Some((start.value, end.value)) else None
  }

  /** All four numbers of a bucket, as parseTimebucket reads them; None where Kotlin throws. */
  function ParseBucket(bucket: string): (r: Option<BucketTimes>)
    ensures r.Some? ==> HourBounds(bucket) == Some((r.value.startHour, r.value.endHour))
  {
    var halves := Split(bucket, '-');
    if |halves| < 2 then None
    else
      var start := Split(halves[0], ':');
      var end := Split(halves[1], ':');
      if |start| < 2 || |end| < 2 then None
      else
        var sh := ParseInt(start[0]);
        var sm := ParseInt(start[1]);
        var eh := ParseInt(end[0]);
        var em := ParseInt(end[1]);
        if sh.Some? && sm.Some? && eh.Some? && em.Some? then
          Some(BucketTimes(sh.value, sm.value, eh.value, em.value))
        else None
  }

  /** `hour in start until end` for the bucket's hours. */
  predicate InBucket(bucket: string, hour: int)
  {
    var b := HourBounds(bucket);
    b.Some? && b.value.0 <= hour < b.value.1
  }

  /** The numbers of TIME_BUCKETS[i]. */
  function Bounds(i: nat): (t: BucketTimes)
    requires i < 12
    ensures InRange(t)
  {
    if i < 11 then BucketTimes(2 * i, 0, 2 * i + 2, 0) else BucketTimes(22, 0, 23, 59)
  }

  /** An 11-character text made of the two clock texts around "-" is the bucket's text. */
  lemma Spelled(t: BucketTimes, text: string)
    requires InRange(t)
    requires |text| == 11 && text[5] == '-'
    requires text[..5] == ClockText(t.startHour, t.startMinute)
    requires text[6..] == ClockText(t.endHour, t.endMinute)
    ensures text == FormatBucket(t)
  {
    Around(text, ClockText(t.startHour, t.startMinute), ClockText(t.endHour, t.endMinute));
  }

  /** A text of eleven characters with "-" in the middle is its two halves around "-". */
  lemma Around(text: string, a: string, b: string)
    requires |text| == 11 && text[5] == '-'
    requires text[..5] == a && text[6..] == b
    ensures text == a + "-" + b
  {
    assert text == text[..5] + [text[5]] + text[6..];
  }

  /** Each entry of TIME_BUCKETS is the text of its numbers. */
  lemma TimeBucketsFormatted(i: nat)
    requires i < 12
    ensures TimeBuckets[i] == FormatBucket(Bounds(i))
  {
    PairFormatted(i / 2 * 2, i);
  }

  /** Entries `first` and `first + 1` of TIME_BUCKETS are the texts of their numbers. */
  lemma PairFormatted(first: nat, i: nat)
    requires first % 2 == 0 && first < 12 && (i == first || i == first + 1)
    ensures TimeBuckets[i] == FormatBucket(Bounds(i))
  {
    if first < 4 {
      NightBucketsFormatted(first, i);
    } else if first < 8 {
      DayBucketsFormatted(first, i);
    } else {
      EveningBucketsFormatted(first, i);
    }
  }

  lemma NightBucketsFormatted(first: nat, i: nat)
    requires (first == 0 || first == 2) && (i == first || i == first + 1)
    ensures TimeBuckets[i] == FormatBucket(Bounds(i))
  {
    if first == 0 {
      if i == 0 {
        Spelled(Bounds(0), TimeBuckets[0]);
      } else {
        Spelled(Bounds(1), TimeBuckets[1]);
      }
    } else {
      if i == 2 {
        Spelled(Bounds(2), TimeBuckets[2]);
      } else {
        Spelled(Bounds(3), TimeBuckets[3]);
      }
    }
  }

  lemma DayBucketsFormatted(first: nat, i: nat)
    requires (first == 4 || first == 6) && (i == first || i == first + 1)
    ensures TimeBuckets[i] == FormatBucket(Bounds(i))
  {
    if first == 4 {
      if i == 4 {
        Spelled(Bounds(4), TimeBuckets[4]);
      } else {
        Spelled(Bounds(5), TimeBuckets[5]);
      }
    } else {
      if i == 6 {
        Spelled(Bounds(6), TimeBuckets[6]);
      } else {
        Spelled(Bounds(7), TimeBuckets[7]);
      }
    }
  }

  lemma EveningBucketsFormatted(first: nat, i: nat)
    requires (first == 8 || first == 10) && (i == first || i == first + 1)
    ensures TimeBuckets[i] == FormatBucket(Bounds(i))
  {
    if first == 8 {
      if i == 8 {
        Spelled(Bounds(8), TimeBuckets[8]);
      } else {
        Spelled(Bounds(9), TimeBuckets[9]);
      }
    } else {
      if i == 10 {
        Spelled(Bounds(10), TimeBuckets[10]);
      } else {
        Spelled(Bounds(11), TimeBuckets[11]);
      }
    }
  }

  /** "HH:MM" holds no "-" and splits at ":" into its two numbers. */
  lemma SplitClock(h: nat, m: nat)
    requires h < 100 && m < 100
    ensures '-' !in ClockText(h, m)
    ensures Split(ClockText(h, m), ':') == [TwoDigits(h), TwoDigits(m)]
  {
    SplitJoin([TwoDigits(h), TwoDigits(m)], ':');
    assert Join([TwoDigits(h), TwoDigits(m)], ':') == ClockText(h, m);
  }

  /** Reading the text of a bucket gives back its numbers. */
  lemma ParseFormatted(t: BucketTimes)
    requires InRange(t)
    ensures ParseBucket(FormatBucket(t)) == Some(t)
  {
    var a := ClockText(t.startHour, t.startMinute);
    var b := ClockText(t.endHour, t.endMinute);
    SplitClock(t.startHour, t.startMinute);
    SplitClock(t.endHour, t.endMinute);
    assert Join([a, b], '-') == a + "-" + b;
    SplitJoin([a, b], '-');
    var halves := Split(FormatBucket(t), '-');
    assert halves == [a, b];
    ParseTwoDigits(t.startHour);
    ParseTwoDigits(t.startMinute);
    ParseTwoDigits(t.endHour);
    ParseTwoDigits(t.endMinute);
  }

  /** TIME_BUCKETS[i] reads as its numbers. */
  lemma TimeBucketParsed(i: nat)
    requires i < 12
    ensures ParseBucket(TimeBuckets[i]) == Some(Bounds(i))
  {
    TimeBucketsFormatted(i);
    ParseFormatted(Bounds(i));
  }

  /** Every entry of TIME_BUCKETS reads as its numbers. */
  lemma TimeBucketsParse()
    ensures |TimeBuckets| == 12
    ensures forall i :: 0 <= i < 12 ==> ParseBucket(TimeBuckets[i]) == Some(Bounds(i))
  {
    forall i | 0 <= i < 12
      ensures ParseBucket(TimeBuckets[i]) == Some(Bounds(i))
    {
      TimeBucketParsed(i);
    }
  }

  /**
   * With TimeBucketsParse: the twelve buckets cover the day from 00:00 to 23:59 without gap or
   * overlap, each bucket starting where the previous one ends.
   */
  lemma BoundsCoverDay()
    ensures Bounds(0).startHour == 0 && Bounds(0).startMinute == 0
    ensures Bounds(11).endHour == 23 && Bounds(11).endMinute == 59
    ensures forall i :: 0 <= i < 11 ==>
      Bounds(i).endHour == Bounds(i + 1).startHour && Bounds(i).endMinute == Bounds(i + 1).startMinute
  {
  }

  /** The lambda of getCurrentTimeBucket's `find`. */
  function HoldsHour(hour: int): string -> bool
  {
    bucket => InBucket(bucket, hour)
  }

  /** getCurrentTimeBucket, with the clock reading as a parameter. */
  function CurrentTimeBucket(now: int): string
  {
    Find(TimeBuckets, HoldsHour(Clock.HourOfDay(now))).GetOrElse(Unknown)
  }

  /** TIME_BUCKETS[i] holds exactly the hours 2i and 2i + 1, except that the last one holds 22 only. */
  lemma HourInBucket(i: nat, h: int)
    requires i < 12 && 0 <= h < 24
    ensures InBucket(TimeBuckets[i], h) <==> (h < 23 && i == h / 2)
  {
    TimeBucketParsed(i);
  }

  /**
   * Before 23:00 the current bucket is the two-hour bucket of the hour; from 23:00 on it is
   * "Unknown", because the last bucket ends at hour 23 and the hour range is half-open.
   */
  lemma CurrentTimeBucketByHour(now: int)
    ensures Clock.HourOfDay(now) < 23 ==> CurrentTimeBucket(now) == TimeBuckets[Clock.HourOfDay(now) / 2]
    ensures Clock.HourOfDay(now) == 23 ==> CurrentTimeBucket(now) == Unknown
  {
    var h := Clock.HourOfDay(now);
    var p := HoldsHour(h);
    forall i | 0 <= i < |TimeBuckets|
      ensures p(TimeBuckets[i]) <==> (h < 23 && i == h / 2)
    {
      HourInBucket(i, h);
    }
    var r := Find(TimeBuckets, p);
    if h < 23 {
      assert p(TimeBuckets[h / 2]);
      var i :| 0 <= i < |TimeBuckets| && TimeBuckets[i] == r.value && p(TimeBuckets[i]);
      assert i == h / 2;
    }
  }

  /**
   * parseTimebucket: the start and end of the bucket on the day of `startDay`, with seconds and
   * milliseconds zeroed; None where Kotlin throws.
   */
  function ParseTimebucket(bucket: string, startDay: int): Option<(int, int)>
  {
    match ParseBucket(bucket)
    case None => None
    case Some(t) =>
      Some((Clock.AtHourMinuteZeroed(startDay, t.startHour, t.startMinute),
            Clock.AtHourMinuteZeroed(startDay, t.endHour, t.endMinute)))
  }

  /**
   * A well-formed bucket reads as two instants on the day of `startDay` that show the bucket's
   * hours and minutes with no seconds, the start no later than the end when the bucket's start
   * time is no later than its end time.
   */
  lemma ParseTimebucketOnDay(t: BucketTimes, startDay: int)
    requires InRange(t)
    ensures var r := ParseTimebucket(FormatBucket(t), startDay);
      && r.Some?
      && Clock.DayStart(r.value.0) == Clock.DayStart(startDay) == Clock.DayStart(r.value.1)
      && Clock.HourOfDay(r.value.0) == t.startHour && Clock.MinuteOfHour(r.value.0) == t.startMinute
      && Clock.HourOfDay(r.value.1) == t.endHour && Clock.MinuteOfHour(r.value.1) == t.endMinute
      && r.value.0 % Clock.MsPerMinute == 0 && r.value.1 % Clock.MsPerMinute == 0
      && (r.value.0 <= r.value.1 <==> t.startHour * 60 + t.startMinute <= t.endHour * 60 + t.endMinute)
  {
    ParseFormatted(t);
    var day := Clock.DayStart(startDay);
    Clock.ReadBack(day, t.startHour, t.startMinute, 0);
    Clock.ReadBack(day, t.endHour, t.endMinute, 0);
    Clock.ZeroedOrder(startDay, t.startHour, t.startMinute, t.endHour, t.endMinute);
  }
}
