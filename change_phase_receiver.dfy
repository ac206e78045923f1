/**
 * Scheduling of the alarms that switch the participant from one phase of their experimental
 * group to the next. Each phase gets one alarm, remembered in the scheduled_alarms table under
 * "phase_<fromDay>", so that scheduling again (after a reboot, say) re-arms the same alarm.
 */
module ChangePhaseReceiver {
  import opened Wrappers
  import opened Text
  import opened Clock
  import opened Study
  import opened ScheduledAlarms
  import Seqs

  /** The receiver name under which the phase-change alarms are stored. */
  const Receiver: string := "de.mimuc.senseeverything.study.ChangePhaseReceiver"

  /** `getPendingIntentId`: 20000 + fromDay as an Int. */
  function PendingIntentId(p: ExperimentalGroupPhase): (id: int)
    ensures IntMin <= id <= IntMax
    ensures (id - (20000 + p.fromDay)) % TwoTo32 == 0
  {
    Wrap32(20000 + p.fromDay)
  }

  /** Phases that start on different days get different pending intent ids. */
  lemma PendingIntentIdsDistinct(p: ExperimentalGroupPhase, q: ExperimentalGroupPhase)
    requires IntMin <= p.fromDay <= IntMax && IntMin <= q.fromDay <= IntMax
    ensures p.fromDay != q.fromDay ==> PendingIntentId(p) != PendingIntentId(q)
  {
    var x := 20000 + p.fromDay;
    var y := 20000 + q.fromDay;
    var a := (PendingIntentId(p) - x) / TwoTo32;
    var b := (PendingIntentId(q) - y) / TwoTo32;
    assert PendingIntentId(p) - x == a * TwoTo32;
    assert PendingIntentId(q) - y == b * TwoTo32;
    assert PendingIntentId(p) - PendingIntentId(q) == x - y + (a - b) * TwoTo32;
    assert -TwoTo32 < x - y < TwoTo32;
  }

  /** `timestampToNextFullDay`: midnight of the day `fromDay` days after the study start. */
  function TimestampToNextFullDay(studyStart: int, fromDay: int): (t: int)
    ensures t % MsPerDay == 0
    ensures t <= studyStart + fromDay * MsPerDay < t + MsPerDay
  {
    DayStart(studyStart + fromDay * MsPerDay)
  }

  /** The result is the start of the study's first day moved on by `fromDay` whole days. */
  lemma NextFullDayIsShiftedMidnight(studyStart: int, fromDay: int)
    ensures TimestampToNextFullDay(studyStart, fromDay) == DayStart(studyStart) + fromDay * MsPerDay
  {
    ShiftByDays(studyStart, fromDay);
  }

  /** When the phase change is due. */
  function TriggerTimestamp(studyStart: int, p: ExperimentalGroupPhase): int
  {
    if p.fromDay == 0 then studyStart + 5 * MsPerMinute
    else TimestampToNextFullDay(studyStart, p.fromDay)
  }

  /** Five minutes after the study start for day 0; otherwise midnight, `fromDay` days on. */
  lemma TriggerTimestampSpec(studyStart: int, p: ExperimentalGroupPhase)
    ensures p.fromDay == 0 ==> TriggerTimestamp(studyStart, p) == studyStart + 5 * MsPerMinute
    ensures p.fromDay != 0 ==> TriggerTimestamp(studyStart, p) == DayStart(studyStart) + p.fromDay * MsPerDay
  {
    NextFullDayIsShiftedMidnight(studyStart, p.fromDay);
  }

  /** The identifier of a phase's alarm record. */
  function PhaseKey(p: ExperimentalGroupPhase): string
  {
    "phase_" + IntToString(p.fromDay)
  }

  /** A phase whose change is not in the past at `now`. */
  function NotPast(studyStart: int, now: int): ExperimentalGroupPhase -> bool
  {
    (p: ExperimentalGroupPhase) => TriggerTimestamp(studyStart, p) >= now
  }

  /** An alarm handed to the alarm manager: its request code, its time and the phase it carries. */
  datatype PhaseAlarm = PhaseAlarm(requestCode: int, at: int, phase: ExperimentalGroupPhase)

  /** The alarm a stored record arms for a phase. */
  function Armed(a: ScheduledAlarm, p: ExperimentalGroupPhase): PhaseAlarm
  {
    PhaseAlarm(a.requestCode, a.timestamp, p)
  }

  /**
   * One pass of the loop: a change in the past is skipped; otherwise the phase's record is
   * fetched or created, and the alarm is set to the record's timestamp.
   */
  function ScheduleOne(t: Table, studyStart: int, p: ExperimentalGroupPhase, now: int): (Table, seq<PhaseAlarm>)
  {
    var due := TriggerTimestamp(studyStart, p);
    if due < now then (t, [])
    else
      var (t', a) := GetOrCreate(t, Receiver, PhaseKey(p), due, now);
      (t', [Armed(a, p)])
  }

  /** `schedulePhaseChanges` over a list of phases, in their order. */
  function SchedulePhases(t: Table, studyStart: int, ps: seq<ExperimentalGroupPhase>, now: int)
    : (Table, seq<PhaseAlarm>)
    decreases |ps|
  {
    if |ps| == 0 then (t, [])
    else
      var (t1, first) := ScheduleOne(t, studyStart, ps[0], now);
      var (t2, rest) := SchedulePhases(t1, studyStart, ps[1..], now);
      (t2, first + rest)
  }

  /** A change in the past arms nothing and leaves the table alone. */
  lemma PastPhaseSkipped(t: Table, studyStart: int, p: ExperimentalGroupPhase, now: int)
    requires TriggerTimestamp(studyStart, p) < now
    ensures ScheduleOne(t, studyStart, p, now) == (t, [])
  {
  }

  /**
   * With no record for the phase yet, the alarm is armed at the phase's trigger time with the
   * request code of its key, and the record is stored.
   */
  lemma FreshPhaseArmedAtTrigger(t: Table, studyStart: int, p: ExperimentalGroupPhase, now: int)
    requires TriggerTimestamp(studyStart, p) >= now
    requires Lookup(t, Receiver, PhaseKey(p)).None?
    ensures var (t', alarms) := ScheduleOne(t, studyStart, p, now);
      && alarms == [PhaseAlarm(GenerateRequestCode(Receiver, PhaseKey(p)), TriggerTimestamp(studyStart, p), p)]
      && Lookup(t', Receiver, PhaseKey(p)).Some?
  {
    GetOrCreateInsertsOne(t, Receiver, PhaseKey(p), TriggerTimestamp(studyStart, p), now);
  }

  /**
   * With a record already stored, the alarm is armed at the STORED timestamp, even when the
   * study start, and with it the trigger time, has changed since.
   */
  lemma StoredPhaseKeepsStoredTime(t: Table, studyStart: int, p: ExperimentalGroupPhase, now: int)
    requires TriggerTimestamp(studyStart, p) >= now
    requires Lookup(t, Receiver, PhaseKey(p)).Some?
    ensures ScheduleOne(t, studyStart, p, now)
            == (t, [Armed(Lookup(t, Receiver, PhaseKey(p)).value, p)])
  {
    GetOrCreateExisting(t, Receiver, PhaseKey(p), TriggerTimestamp(studyStart, p), now);
  }

  function Phases(alarms: seq<PhaseAlarm>): seq<ExperimentalGroupPhase>
  {
    seq(|alarms|, i requires 0 <= i < |alarms| => alarms[i].phase)
  }

  lemma PhasesConcat(a: seq<PhaseAlarm>, b: seq<PhaseAlarm>)
    ensures Phases(a + b) == Phases(a) + Phases(b)
  {
  }

  /** One pass arms the phase exactly when its change is not in the past. */
  lemma ArmsIfNotPast(t: Table, studyStart: int, p: ExperimentalGroupPhase, now: int)
    ensures Phases(ScheduleOne(t, studyStart, p, now).1) == if NotPast(studyStart, now)(p) then [p] else []
  {
  }

  /** Exactly the phases whose change is not in the past get an alarm, one each, in order. */
  lemma {:induction false} SchedulePhasesArmsFuturePhases(t: Table, studyStart: int, ps: seq<ExperimentalGroupPhase>, now: int)
    ensures Phases(SchedulePhases(t, studyStart, ps, now).1) == Seqs.Filter(ps, NotPast(studyStart, now))
    decreases |ps|
  {
    if |ps| > 0 {
      var step := ScheduleOne(t, studyStart, ps[0], now);
      var rest := SchedulePhases(step.0, studyStart, ps[1..], now).1;
      SchedulePhasesArmsFuturePhases(step.0, studyStart, ps[1..], now);
      var keep := NotPast(studyStart, now);
      ArmsIfNotPast(t, studyStart, ps[0], now);
      PhasesConcat(step.1, rest);
      assert Seqs.Filter(ps, keep) == (if keep(ps[0]) then [ps[0]] else []) + Seqs.Filter(ps[1..], keep);
    }
  }

  /** Scheduling only appends rows to the table. */
  lemma {:induction false} SchedulePhasesAppends(t: Table, studyStart: int, ps: seq<ExperimentalGroupPhase>, now: int)
    ensures t.rows <= SchedulePhases(t, studyStart, ps, now).0.rows
    decreases |ps|
  {
    if |ps| > 0 {
      var t1 := ScheduleOne(t, studyStart, ps[0], now).0;
      SchedulePhasesAppends(t1, studyStart, ps[1..], now);
    }
  }

  /** Every phase that is not in the past has a record in the table. */
  ghost predicate Covered(t: Table, studyStart: int, ps: seq<ExperimentalGroupPhase>, now: int)
  {
    forall i :: 0 <= i < |ps| && TriggerTimestamp(studyStart, ps[i]) >= now ==>
      Lookup(t, Receiver, PhaseKey(ps[i])).Some?
  }

  /** A list is covered when its head (if not in the past) and its tail are. */
  lemma CoveredCons(t: Table, studyStart: int, ps: seq<ExperimentalGroupPhase>, now: int)
    requires |ps| > 0
    ensures Covered(t, studyStart, ps, now) <==>
      && (TriggerTimestamp(studyStart, ps[0]) >= now ==> Lookup(t, Receiver, PhaseKey(ps[0])).Some?)
      && Covered(t, studyStart, ps[1..], now)
  {
    if (TriggerTimestamp(studyStart, ps[0]) >= now ==> Lookup(t, Receiver, PhaseKey(ps[0])).Some?)
       && Covered(t, studyStart, ps[1..], now) {
      forall i | 0 <= i < |ps| && TriggerTimestamp(studyStart, ps[i]) >= now
        ensures Lookup(t, Receiver, PhaseKey(ps[i])).Some?
      {
        if i > 0 {
          assert ps[i] == ps[1..][i - 1];
        }
      }
    }
    if Covered(t, studyStart, ps, now) {
      forall i | 0 <= i < |ps[1..]| && TriggerTimestamp(studyStart, ps[1..][i]) >= now
        ensures Lookup(t, Receiver, PhaseKey(ps[1..][i])).Some?
      {
        assert ps[1..][i] == ps[i + 1];
      }
    }
  }

  /** The alarms that the records of table `t` arm for the phases. */
  function Rearmed(t: Table, studyStart: int, ps: seq<ExperimentalGroupPhase>, now: int): seq<PhaseAlarm>
    decreases |ps|
  {
    if |ps| == 0 then []
    else
      var first :=
        if TriggerTimestamp(studyStart, ps[0]) < now then []
        else match Lookup(t, Receiver, PhaseKey(ps[0]))
          case Some(a) => [Armed(a, ps[0])]
          case None => [];
      first + Rearmed(t, studyStart, ps[1..], now)
  }

  lemma LookupKeptByAppend(t: Table, u: Table, key: string)
    requires t.rows <= u.rows
    requires Lookup(t, Receiver, key).Some?
    ensures Lookup(u, Receiver, key) == Lookup(t, Receiver, key)
  {
    assert u.rows == t.rows + u.rows[|t.rows|..];
    Seqs.FindConcatFound(t.rows, u.rows[|t.rows|..], HasKey(Receiver, key));
  }

  /** After a pass that arms a phase, the table holds the record whose alarm was armed. */
  lemma ArmsStoredRecord(t: Table, studyStart: int, p: ExperimentalGroupPhase, now: int)
    requires TriggerTimestamp(studyStart, p) >= now
    ensures var (t1, first) := ScheduleOne(t, studyStart, p, now);
      && Lookup(t1, Receiver, PhaseKey(p)).Some?
      && first == [Armed(Lookup(t1, Receiver, PhaseKey(p)).value, p)]
  {
    var key := PhaseKey(p);
    var due := TriggerTimestamp(studyStart, p);
    if Lookup(t, Receiver, key).Some? {
      GetOrCreateExisting(t, Receiver, key, due, now);
    } else {
      GetOrCreateInsertsOne(t, Receiver, key, due, now);
    }
  }

  /**
   * The alarms of a run are those that the records of any later table (one that only appended
   * rows to the run's result) arm, and that table covers every phase not in the past.
   */
  lemma {:induction false} FirstRun(t: Table, studyStart: int, ps: seq<ExperimentalGroupPhase>, now: int, later: Table)
    requires SchedulePhases(t, studyStart, ps, now).0.rows <= later.rows
    ensures SchedulePhases(t, studyStart, ps, now).1 == Rearmed(later, studyStart, ps, now)
    ensures Covered(later, studyStart, ps, now)
    decreases |ps|
  {
    if |ps| > 0 {
      var p := ps[0];
      var key := PhaseKey(p);
      var due := TriggerTimestamp(studyStart, p);
      var (t1, first) := ScheduleOne(t, studyStart, p, now);
      var (t2, rest) := SchedulePhases(t1, studyStart, ps[1..], now);
      SchedulePhasesAppends(t1, studyStart, ps[1..], now);
      FirstRun(t1, studyStart, ps[1..], now, later);
      if due >= now {
        ArmsStoredRecord(t, studyStart, p, now);
        LookupKeptByAppend(t1, later, key);
      }
      CoveredCons(later, studyStart, ps, now);
    }
  }

  /** On a table that covers the phases, scheduling changes nothing and arms the stored alarms. */
  lemma {:induction false} SecondRun(t: Table, studyStart: int, ps: seq<ExperimentalGroupPhase>, now: int)
    requires Covered(t, studyStart, ps, now)
    ensures SchedulePhases(t, studyStart, ps, now) == (t, Rearmed(t, studyStart, ps, now))
  {
    if |ps| > 0 {
      var p := ps[0];
      if TriggerTimestamp(studyStart, p) >= now {
        assert Lookup(t, Receiver, PhaseKey(p)).Some?;
        StoredPhaseKeepsStoredTime(t, studyStart, p, now);
      }
      CoveredCons(t, studyStart, ps, now);
      SecondRun(t, studyStart, ps[1..], now);
    }
  }

  /** Rescheduling at the same moment changes no record and arms exactly the same alarms. */
  lemma ReschedulingIsIdempotent(t: Table, studyStart: int, ps: seq<ExperimentalGroupPhase>, now: int)
    ensures var (t1, alarms1) := SchedulePhases(t, studyStart, ps, now);
            SchedulePhases(t1, studyStart, ps, now) == (t1, alarms1)
  {
    var t1 := SchedulePhases(t, studyStart, ps, now).0;
    FirstRun(t, studyStart, ps, now, t1);
    SecondRun(t1, studyStart, ps, now);
  }

  /** A phase that is not past, whose record `GetOrCreate` fetched or made, arms its alarm before the rest. */
  lemma SchedulePhasesStep(before: Table, after: Table, a: ScheduledAlarm, studyStart: int,
                           ps: seq<ExperimentalGroupPhase>, now: int)
    requires |ps| > 0 && TriggerTimestamp(studyStart, ps[0]) >= now
    requires (after, a) == GetOrCreate(before, Receiver, PhaseKey(ps[0]), TriggerTimestamp(studyStart, ps[0]), now)
    ensures var rest := SchedulePhases(after, studyStart, ps[1..], now);
      SchedulePhases(before, studyStart, ps, now) == (rest.0, [Armed(a, ps[0])] + rest.1)
  {
    assert ScheduleOne(before, studyStart, ps[0], now) == (after, [Armed(a, ps[0])]);
  }

  /** A pass over a phase whose change is in the past goes straight on to the next phase. */
  lemma SchedulePhasesSkip(t: Table, studyStart: int, ps: seq<ExperimentalGroupPhase>, now: int)
    requires |ps| > 0 && TriggerTimestamp(studyStart, ps[0]) < now
    ensures SchedulePhases(t, studyStart, ps, now) == SchedulePhases(t, studyStart, ps[1..], now)
  {
    var rest := SchedulePhases(t, studyStart, ps[1..], now);
    assert ScheduleOne(t, studyStart, ps[0], now) == (t, []);
    assert [] + rest.1 == rest.1;
  }

  /** `schedulePhaseChanges`: no phases, nothing scheduled; else one pass per phase. */
  method SchedulePhaseChanges(table: AlarmTable, studyStart: int, phases: Option<seq<ExperimentalGroupPhase>>, now: int)
    returns (alarms: seq<PhaseAlarm>)
    modifies table
    ensures phases.None? ==> alarms == [] && table.Model() == old(table.Model())
    ensures phases.Some? ==> (table.Model(), alarms) == SchedulePhases(old(table.Model()), studyStart, phases.value, now)
  {
    alarms := [];
    if phases.None? {
      return;
    }
    var ps := phases.value;
    var i := 0;
    assert ps[0..] == ps;
    assert alarms + SchedulePhases(table.Model(), studyStart, ps, now).1 == SchedulePhases(table.Model(), studyStart, ps, now).1;
    while i < |ps|
      invariant 0 <= i <= |ps|
      invariant var rest := SchedulePhases(table.Model(), studyStart, ps[i..], now);
        (rest.0, alarms + rest.1) == SchedulePhases(old(table.Model()), studyStart, ps, now)
    {
      var p := ps[i];
      ghost var before := table.Model();
      assert ps[i..][1..] == ps[i + 1..];
      var due := TriggerTimestamp(studyStart, p);
      if due < now {
        SchedulePhasesSkip(before, studyStart, ps[i..], now);
        i := i + 1;
        continue;
      }
      var a := table.GetOrCreateScheduledAlarm(Receiver, PhaseKey(p), due, now);
      ghost var rest := SchedulePhases(table.Model(), studyStart, ps[i + 1..], now);
      SchedulePhasesStep(before, table.Model(), a, studyStart, ps[i..], now);
      assert alarms + ([Armed(a, p)] + rest.1) == (alarms + [Armed(a, p)]) + rest.1;
      alarms := alarms + [Armed(a, p)];
      i := i + 1;
    }
    assert ps[i..] == [];
    assert SchedulePhases(table.Model(), studyStart, ps[i..], now) == (table.Model(), []);
    assert alarms + [] == alarms;
  }
}
