/**
 * The text replacements a questionnaire may show: for a pending questionnaire reached from a
 * notification trigger, the times at which the triggers of the same time bucket on the same day
 * were pushed and answered, as `<name>_pushed` and `<name>_answered`, formatted `HH:MM`.
 *
 * The trigger is looked up along the chain of source questionnaires: a questionnaire opened by an
 * event has no trigger of its own, but its source may. The chain is followed without a bound and
 * ends only if it has no cycle; here the walk carries `fuel`, and `Unbounded` stands for a walk
 * that does not end within it.
 *
 * The database is the pending_questionnaire table, keyed by uid, and the notification_trigger
 * table in its order. Its day query is taken to select the triggers whose `validFrom` lies in the
 * day, in table order.
 */
module QuestionnaireData {
  import opened Wrappers
  import opened Triggers
  import PQ = PendingQuestionnaires
  import Clock
  import Text
  import Seqs

  datatype Database = Database(pending: map<int, PQ.PendingRecord>, triggers: seq<NotificationTrigger>)

  function HasUid(uid: int): NotificationTrigger -> bool
  {
    (t: NotificationTrigger) => t.uid == uid
  }

  /** `notificationTriggerDao().getById` */
  function TriggerById(db: Database, uid: int): (r: Option<NotificationTrigger>)
    ensures r.Some? ==> r.value in db.triggers && r.value.uid == uid
    ensures r.None? <==> forall i :: 0 <= i < |db.triggers| ==> db.triggers[i].uid != uid
  {
    Seqs.Find(db.triggers, HasUid(uid))
  }

  /** The stored questionnaire a pending questionnaire was created from, if it has one and it exists. */
  function Source(db: Database, pq: PQ.PendingRecord): Option<PQ.PendingRecord>
  {
    match pq.sourcePendingNotificationId
    case None => None
    case Some(id) => if id in db.pending then Some(db.pending[id]) else None
  }

  /** The k-th questionnaire along the chain of sources, starting from `pq` itself. */
  function Ancestor(db: Database, pq: PQ.PendingRecord, k: nat): Option<PQ.PendingRecord>
    decreases k
  {
    if k == 0 then Some(pq)
    else match Source(db, pq)
      case None => None
      case Some(s) => Ancestor(db, s, k - 1)
  }

  /** The outcome of the walk along the sources. */
  datatype Lookup = Found(trigger: Option<NotificationTrigger>) | Unbounded

  /** `findNextNotificationTrigger`, with at most `fuel` steps to a source. */
  function FindNextNotificationTrigger(db: Database, pq: PQ.PendingRecord, fuel: nat): Lookup
    decreases fuel
  {
    if pq.notificationTriggerUid.Some? then Found(TriggerById(db, pq.notificationTriggerUid.value))
    else match Source(db, pq)
      case None => Found(None)
      case Some(s) => if fuel == 0 then Unbounded else FindNextNotificationTrigger(db, s, fuel - 1)
  }

  /**
   * The k-th questionnaire on the chain is the first that names a trigger, and `result` is that
   * trigger as stored; or it is the first without a trigger, has no stored source, and `result`
   * is nothing.
   */
  ghost predicate FirstStop(db: Database, pq: PQ.PendingRecord, k: nat, result: Option<NotificationTrigger>)
  {
    && Ancestor(db, pq, k).Some?
    && (forall j :: 0 <= j < k ==> Ancestor(db, pq, j).Some? && Ancestor(db, pq, j).value.notificationTriggerUid.None?)
    && var a := Ancestor(db, pq, k).value;
       && result == (if a.notificationTriggerUid.Some? then TriggerById(db, a.notificationTriggerUid.value) else None)
       && (a.notificationTriggerUid.None? ==> Source(db, a).None?)
  }

  /**
   * A walk that ends stops at the first questionnaire on the chain that names a trigger, and
   * returns that trigger as stored, or at the first one without a trigger and without a stored
   * source, and returns nothing.
   */
  lemma {:induction false} FoundIsFirstOnChain(db: Database, pq: PQ.PendingRecord, fuel: nat)
    requires FindNextNotificationTrigger(db, pq, fuel).Found?
    ensures exists k :: 0 <= k <= fuel && FirstStop(db, pq, k, FindNextNotificationTrigger(db, pq, fuel).trigger)
    decreases fuel
  {
    if pq.notificationTriggerUid.Some? || Source(db, pq).None? {
      assert FirstStop(db, pq, 0, FindNextNotificationTrigger(db, pq, fuel).trigger);
    } else {
      var s := Source(db, pq).value;
      FoundIsFirstOnChain(db, s, fuel - 1);
      var k :| 0 <= k <= fuel - 1 && FirstStop(db, s, k, FindNextNotificationTrigger(db, s, fuel - 1).trigger);
      assert Ancestor(db, pq, k + 1) == Ancestor(db, s, k);
      forall j | 0 <= j < k + 1
        ensures Ancestor(db, pq, j).Some? && Ancestor(db, pq, j).value.notificationTriggerUid.None?
      {
        if j > 0 {
          assert Ancestor(db, pq, j) == Ancestor(db, s, j - 1);
        }
      }
      assert FindNextNotificationTrigger(db, pq, fuel) == FindNextNotificationTrigger(db, s, fuel - 1);
      assert FirstStop(db, pq, k + 1, FindNextNotificationTrigger(db, pq, fuel).trigger);
    }
  }

  /** Once the walk ends, more fuel does not change its result. */
  lemma {:induction false} MoreFuelSameResult(db: Database, pq: PQ.PendingRecord, fuel: nat, more: nat)
    requires FindNextNotificationTrigger(db, pq, fuel).Found?
    requires fuel <= more
    ensures FindNextNotificationTrigger(db, pq, more) == FindNextNotificationTrigger(db, pq, fuel)
    decreases fuel
  {
    if pq.notificationTriggerUid.None? && Source(db, pq).Some? {
      MoreFuelSameResult(db, Source(db, pq).value, fuel - 1, more - 1);
    }
  }

  /** A questionnaire without a trigger that is its own source is never resolved: the walk does not end. */
  lemma {:induction false} SelfSourceNeverEnds(db: Database, pq: PQ.PendingRecord, fuel: nat)
    requires pq.notificationTriggerUid.None?
    requires pq.sourcePendingNotificationId.Some? && pq.sourcePendingNotificationId.value in db.pending
    requires db.pending[pq.sourcePendingNotificationId.value] == pq
    ensures FindNextNotificationTrigger(db, pq, fuel) == Unbounded
    decreases fuel
  {
    if fuel > 0 {
      SelfSourceNeverEnds(db, pq, fuel - 1);
    }
  }

  /**
   * A chain without cycles ends: when each stored source ranks lower than the questionnaire it
   * started, the walk from `pq` ends within `rank(pq)` steps.
   */
  lemma {:induction false} AcyclicChainEnds(db: Database, pq: PQ.PendingRecord, rank: PQ.PendingRecord -> nat)
    requires forall id :: id in db.pending ==> (Source(db, db.pending[id]).Some? ==> rank(Source(db, db.pending[id]).value) < rank(db.pending[id]))
    requires Source(db, pq).Some? ==> rank(Source(db, pq).value) < rank(pq)
    ensures FindNextNotificationTrigger(db, pq, rank(pq)).Found?
    decreases rank(pq)
  {
    if pq.notificationTriggerUid.None? && Source(db, pq).Some? {
      var s := Source(db, pq).value;
      var id := pq.sourcePendingNotificationId.value;
      assert db.pending[id] == s;
      AcyclicChainEnds(db, s, rank);
      MoreFuelSameResult(db, s, rank(s), rank(pq) - 1);
    }
  }

  /** `formatTriggerTimestamp`: the hour of day and the minute, each padded to two digits. */
  function FormatTriggerTimestamp(timestamp: int): string
  {
    Text.PadStart2(Text.NatToString(Clock.HourOfDay(timestamp))) + ":" +
    Text.PadStart2(Text.NatToString(Clock.MinuteOfHour(timestamp)))
  }

  /** A formatted timestamp is `HH:MM`, and its two fields read back as the hour and the minute. */
  lemma FormatReadsBack(timestamp: int)
    ensures var s := FormatTriggerTimestamp(timestamp);
      && |s| == 5 && s[2] == ':'
      && Text.ParseInt(s[..2]) == Some(Clock.HourOfDay(timestamp))
      && Text.ParseInt(s[3..]) == Some(Clock.MinuteOfHour(timestamp))
  {
    var h := Clock.HourOfDay(timestamp);
    var m := Clock.MinuteOfHour(timestamp);
    Text.TwoDigitsPadded(h);
    Text.TwoDigitsPadded(m);
    Text.ParseTwoDigits(h);
    Text.ParseTwoDigits(m);
    Fields(Text.TwoDigits(h), Text.TwoDigits(m));
  }

  lemma Fields(a: string, b: string)
    requires |a| == 2 && |b| == 2
    ensures var s := a + ":" + b;
      |s| == 5 && s[2] == ':' && s[..2] == a && s[3..] == b
  {
  }

  /** The filter of `getTriggersForTimeBucketOnDay`: in the day's interval and the given bucket. */
  function OnDayInBucket(startOfDay: int, endOfDay: int, timeBucket: string): NotificationTrigger -> bool
  {
    (t: NotificationTrigger) => startOfDay <= t.validFrom <= endOfDay && t.timeBucket == timeBucket
  }

  /** `getTriggersForTimeBucketOnDay`: from midnight to 23:59:59.999 of the day holding `timestamp`. */
  function TriggersForTimeBucketOnDay(db: Database, timestamp: int, timeBucket: string): (r: seq<NotificationTrigger>)
    ensures forall i :: 0 <= i < |r| ==> r[i] in db.triggers && r[i].timeBucket == timeBucket
                                         && Clock.DayStart(r[i].validFrom) == Clock.DayStart(timestamp)
    ensures forall i :: (0 <= i < |db.triggers| && db.triggers[i].timeBucket == timeBucket
                         && Clock.DayStart(db.triggers[i].validFrom) == Clock.DayStart(timestamp)) ==> db.triggers[i] in r
  {
    var startOfDay := Clock.DayStart(timestamp);
    var endOfDay := startOfDay + 23 * Clock.MsPerHour + 59 * Clock.MsPerMinute + 59 * Clock.MsPerSecond + 999;
    var r := Seqs.Filter(db.triggers, OnDayInBucket(startOfDay, endOfDay, timeBucket));
    forall i | 0 <= i < |r| ensures Clock.DayStart(r[i].validFrom) == startOfDay {
      Clock.SameDay(r[i].validFrom, startOfDay);
    }
    forall i | 0 <= i < |db.triggers| && Clock.DayStart(db.triggers[i].validFrom) == startOfDay
      ensures startOfDay <= db.triggers[i].validFrom <= endOfDay
    {
      Clock.SameDay(db.triggers[i].validFrom, startOfDay);
    }
    r
  }

  /** The key of the push time of a trigger named `name`. */
  function PushedKey(name: string): string { name + "_pushed" }

  /** The key of the answer time of a trigger named `name`. */
  function AnsweredKey(name: string): string { name + "_answered" }

  /** The map the loop of `getNotificationTriggerTextReplacements` fills, trigger by trigger. */
  function Replacements(triggers: seq<NotificationTrigger>): map<string, string>
  {
    if |triggers| == 0 then map[]
    else Record(Replacements(triggers[..|triggers| - 1]), triggers[|triggers| - 1])
  }

  /** One round of that loop: the push time, then the answer time, of one trigger. */
  function Record(m: map<string, string>, t: NotificationTrigger): map<string, string>
  {
    var pushed := if t.pushedAt.Some? then m[PushedKey(t.name) := FormatTriggerTimestamp(t.pushedAt.value)] else m;
    if t.answeredAt.Some? then pushed[AnsweredKey(t.name) := FormatTriggerTimestamp(t.answeredAt.value)] else pushed
  }

  /** The keys one trigger records: its push key when pushed, its answer key when answered. */
  predicate KeyOf(t: NotificationTrigger, key: string)
  {
    (t.pushedAt.Some? && key == PushedKey(t.name)) || (t.answeredAt.Some? && key == AnsweredKey(t.name))
  }

  /** One round adds exactly the trigger's own keys. */
  lemma RecordKeys(m: map<string, string>, t: NotificationTrigger, key: string)
    ensures key in Record(m, t) <==> key in m || KeyOf(t, key)
  {
  }

  /** A key is present exactly when some trigger of that name has a push (or answer) time. */
  lemma {:induction false} ReplacementKeys(triggers: seq<NotificationTrigger>, key: string)
    ensures key in Replacements(triggers) <==> exists i :: 0 <= i < |triggers| && KeyOf(triggers[i], key)
  {
    if |triggers| > 0 {
      var n := |triggers| - 1;
      var init := triggers[..n];
      ReplacementKeys(init, key);
      RecordKeys(Replacements(init), triggers[n], key);
      if key in Replacements(init) {
        var i :| 0 <= i < n && KeyOf(init[i], key);
        assert init[i] == triggers[i];
      }
      if exists i :: 0 <= i < |triggers| && KeyOf(triggers[i], key) {
        var i :| 0 <= i < |triggers| && KeyOf(triggers[i], key);
        if i < n {
          assert init[i] == triggers[i];
        }
      }
    }
  }

  /** A push key and an answer key never coincide, whatever the names. */
  lemma KeysDiffer(a: string, b: string)
    ensures PushedKey(a) != AnsweredKey(b)
  {
    var p := PushedKey(a);
    var q := AnsweredKey(b);
    assert p[|p| - 6] == 'p';
    assert q[|q| - 6] == 's';
  }

  /** Keys with the same suffix coincide only for the same name. */
  lemma SuffixInjective(a: string, b: string, suffix: string)
    requires a + suffix == b + suffix
    ensures a == b
  {
    assert a == (a + suffix)[..|a|];
    assert b == (b + suffix)[..|b|];
  }

  /** A trigger leaves every key other than its own two as it was. */
  lemma RecordKeepsOtherKeys(m: map<string, string>, t: NotificationTrigger, key: string)
    requires key != PushedKey(t.name) && key != AnsweredKey(t.name)
    ensures key in Record(m, t) <==> key in m
    ensures key in m ==> Record(m, t)[key] == m[key]
  {
  }

  /** A trigger's own times are recorded under its two keys. */
  lemma RecordOwnKeys(m: map<string, string>, t: NotificationTrigger)
    ensures t.pushedAt.Some? ==>
      PushedKey(t.name) in Record(m, t) && Record(m, t)[PushedKey(t.name)] == FormatTriggerTimestamp(t.pushedAt.value)
    ensures t.answeredAt.Some? ==>
      AnsweredKey(t.name) in Record(m, t) && Record(m, t)[AnsweredKey(t.name)] == FormatTriggerTimestamp(t.answeredAt.value)
  {
    KeysDiffer(t.name, t.name);
  }

  /** Among triggers with distinct names, each time recorded is the formatted time of its own trigger. */
  lemma {:induction false} ReplacementValues(triggers: seq<NotificationTrigger>, i: int)
    requires 0 <= i < |triggers|
    requires forall j :: 0 <= j < |triggers| && j != i ==> triggers[j].name != triggers[i].name
    ensures triggers[i].pushedAt.Some? ==>
      (PushedKey(triggers[i].name) in Replacements(triggers)
       && Replacements(triggers)[PushedKey(triggers[i].name)] == FormatTriggerTimestamp(triggers[i].pushedAt.value))
    ensures triggers[i].answeredAt.Some? ==>
      (AnsweredKey(triggers[i].name) in Replacements(triggers)
       && Replacements(triggers)[AnsweredKey(triggers[i].name)] == FormatTriggerTimestamp(triggers[i].answeredAt.value))
  {
    var n := |triggers| - 1;
    var t := triggers[n];
    var u := triggers[i];
    var init := triggers[..n];
    assert Replacements(triggers) == Record(Replacements(init), t);
    if i == n {
      RecordOwnKeys(Replacements(init), t);
    } else {
      assert PushedKey(u.name) != AnsweredKey(t.name) && AnsweredKey(u.name) != PushedKey(t.name) by {
        KeysDiffer(u.name, t.name);
        KeysDiffer(t.name, u.name);
      }
      assert PushedKey(t.name) != PushedKey(u.name) by {
        if PushedKey(t.name) == PushedKey(u.name) {
          SuffixInjective(t.name, u.name, "_pushed");
        }
      }
      assert AnsweredKey(t.name) != AnsweredKey(u.name) by {
        if AnsweredKey(t.name) == AnsweredKey(u.name) {
          SuffixInjective(t.name, u.name, "_answered");
        }
      }
      assert u == init[i];
      forall j | 0 <= j < n && j != i ensures init[j].name != init[i].name {
        assert init[j] == triggers[j];
      }
      ReplacementValues(init, i);
      RecordKeepsOtherKeys(Replacements(init), t, PushedKey(u.name));
      RecordKeepsOtherKeys(Replacements(init), t, AnsweredKey(u.name));
    }
  }

  /** `getNotificationTriggerTextReplacements`: the loop that fills the map. */
  method GetNotificationTriggerTextReplacements(triggers: seq<NotificationTrigger>) returns (map': map<string, string>)
    ensures map' == Replacements(triggers)
  {
    map' := map[];
    for i := 0 to |triggers|
      invariant map' == Replacements(triggers[..i])
    {
      assert triggers[..i + 1][..i] == triggers[..i];
      var trigger := triggers[i];
      var pushed := trigger.pushedAt;
      if pushed.Some? {
        map' := map'[PushedKey(trigger.name) := FormatTriggerTimestamp(pushed.value)];
      }
      var answered := trigger.answeredAt;
      if answered.Some? {
        map' := map'[AnsweredKey(trigger.name) := FormatTriggerTimestamp(answered.value)];
      }
    }
    assert triggers[..|triggers|] == triggers;
  }

  /**
   * `getTextReplacementsForPendingQuestionnaire`: nothing for a missing questionnaire or when no
   * trigger is found; otherwise the times of the triggers of the found trigger's day and bucket.
   * None when the walk does not end within `fuel`.
   */
  function TextReplacements(db: Database, pendingQuestionnaireId: int, fuel: nat): Option<map<string, string>>
  {
    if pendingQuestionnaireId !in db.pending then Some(map[])
    else match FindNextNotificationTrigger(db, db.pending[pendingQuestionnaireId], fuel)
      case Unbounded => None
      case Found(None) => Some(map[])
      case Found(Some(t)) => Some(Replacements(TriggersForTimeBucketOnDay(db, t.validFrom, t.timeBucket)))
  }

  /**
   * Every replacement names a trigger of the same day and the same time bucket as the trigger the
   * questionnaire was reached from, and one that was pushed (or answered); a missing questionnaire
   * or a missing trigger gives no replacements.
   */
  lemma ReplacementsComeFromSameDayAndBucket(db: Database, pendingQuestionnaireId: int, fuel: nat, key: string)
    requires TextReplacements(db, pendingQuestionnaireId, fuel).Some?
    ensures pendingQuestionnaireId !in db.pending ==> TextReplacements(db, pendingQuestionnaireId, fuel) == Some(map[])
    ensures key in TextReplacements(db, pendingQuestionnaireId, fuel).value ==>
      var found := FindNextNotificationTrigger(db, db.pending[pendingQuestionnaireId], fuel);
      && found.trigger.Some?
      && exists t :: t in db.triggers && t.timeBucket == found.trigger.value.timeBucket
                     && Clock.DayStart(t.validFrom) == Clock.DayStart(found.trigger.value.validFrom)
                     && ((t.pushedAt.Some? && key == PushedKey(t.name)) || (t.answeredAt.Some? && key == AnsweredKey(t.name)))
  {
    if pendingQuestionnaireId in db.pending {
      var found := FindNextNotificationTrigger(db, db.pending[pendingQuestionnaireId], fuel);
      if found.trigger.Some? {
        var t := found.trigger.value;
        var ts := TriggersForTimeBucketOnDay(db, t.validFrom, t.timeBucket);
        ReplacementKeys(ts, key);
      }
    }
  }

  /** `getTextReplacementsForPendingQuestionnaire` with the map filled by its loop. */
  method GetTextReplacementsForPendingQuestionnaire(db: Database, pendingQuestionnaireId: int, fuel: nat)
    returns (r: Option<map<string, string>>)
    ensures r == TextReplacements(db, pendingQuestionnaireId, fuel)
  {
    if pendingQuestionnaireId !in db.pending {
      return Some(map[]);
    }
    var found := FindNextNotificationTrigger(db, db.pending[pendingQuestionnaireId], fuel);
    if found.Unbounded? {
      return None;
    }
    if found.trigger.None? {
      return Some(map[]);
    }
    var trigger := found.trigger.value;
    var triggers := TriggersForTimeBucketOnDay(db, trigger.validFrom, trigger.timeBucket);
    var replacements := GetNotificationTriggerTextReplacements(triggers);
    return Some(replacements);
  }
}
