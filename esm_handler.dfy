/**
 * The ESM handler (service/esm/EsmHandler.kt): which questionnaire trigger an app event opens,
 * the rule-based notification an event creates from a floating-widget trigger, the search for
 * the next random-EMA notification time inside a time bucket, and the next alarm of a periodic
 * questionnaire.
 *
 * Clock readings are parameters; `(a..b).random()` picks from a stream of raw draws. Where Kotlin
 * throws (a bucket or time text that does not parse, an empty random range) the functions say so
 * with a distinct value.
 */
module EsmHandler {
  import opened Wrappers
  import opened Triggers
  import opened Seqs
  import opened Text
  import Clock
  import BucketedWidget

  /** The event name under which a questionnaire is opened directly by its trigger id. */
  const OpenQuestionnaireEvent: string := "open_questionnaire"

  /** The event name under which a rule pushes a floating-widget notification trigger. */
  const PutNotificationTriggerEvent: string := "put_notification_trigger"

  /** EventQuestionnaireTrigger, the `filterIsInstance` of handleEvent's first part. */
  predicate IsEventTrigger(t: QuestionnaireTrigger)
  {
    t.config.Event?
  }

  /** EMAFloatingWidgetNotificationTrigger, the `filterIsInstance` of handleEvent's second part. */
  predicate IsWidgetTrigger(t: QuestionnaireTrigger)
  {
    t.config.FloatingWidget?
  }

  /** The lambda `{ it.id == triggerId }`. */
  function HasTriggerId(id: int): QuestionnaireTrigger -> bool
  {
    (t: QuestionnaireTrigger) => t.id == id
  }

  /** The lambda `{ it.configuration.eventName == eventName }` on event triggers. */
  function HasEventName(eventName: string): QuestionnaireTrigger -> bool
  {
    (t: QuestionnaireTrigger) => t.config.Event? && t.config.eventName == eventName
  }

  /**
   * The event trigger an event selects: an "open_questionnaire" event with a trigger id selects
   * the first event trigger with that id, any other event the first with its event name.
   */
  function MatchEventTrigger(triggers: seq<QuestionnaireTrigger>, eventName: string, triggerId: Option<int>)
    : Option<QuestionnaireTrigger>
  {
    var events := Filter(triggers, IsEventTrigger);
    if eventName == OpenQuestionnaireEvent && triggerId.Some? then Find(events, HasTriggerId(triggerId.value))
    else Find(events, HasEventName(eventName))
  }

  /** What handleEvent goes on to do. */
  datatype EventAction =
    /** handleEventOnQuestionnaire: a pending questionnaire for the trigger, then the questionnaire opens. */
    | OpenQuestionnaire(questionnaireId: int, triggerId: int)
    /** handleEventPushedNotificationTrigger for a floating-widget trigger and the event's source id. */
    | PushNotificationTrigger(triggerId: int, sourceId: Option<int>)

  /** The first part of handleEvent: the matched event trigger opens its questionnaire when that is known. */
  function OpenAction(triggers: seq<QuestionnaireTrigger>, questionnaireIds: seq<int>, eventName: string,
                      triggerId: Option<int>): seq<EventAction>
  {
    match MatchEventTrigger(triggers, eventName, triggerId)
    case Some(t) =>
      if t.questionnaireId in questionnaireIds then [OpenQuestionnaire(t.questionnaireId, t.id)] else []
    case None => []
  }

  /**
   * The second part of handleEvent: a "put_notification_trigger" event with a trigger id hands
   * the first floating-widget trigger of that id on.
   */
  function PushAction(triggers: seq<QuestionnaireTrigger>, eventName: string, sourceId: Option<int>,
                      triggerId: Option<int>): seq<EventAction>
  {
    if eventName == PutNotificationTriggerEvent && triggerId.Some? then
      match Find(Filter(triggers, IsWidgetTrigger), HasTriggerId(triggerId.value))
      case Some(w) => [PushNotificationTrigger(w.id, sourceId)]
      case None => []
    else []
  }

  /** handleEvent, with the stored questionnaires reduced to their ids: first the event trigger, then the widget trigger. */
  function HandleEvent(triggers: seq<QuestionnaireTrigger>, questionnaireIds: seq<int>, eventName: string,
                       sourceId: Option<int>, triggerId: Option<int>): seq<EventAction>
  {
    OpenAction(triggers, questionnaireIds, eventName, triggerId) + PushAction(triggers, eventName, sourceId, triggerId)
  }

  /** `keep(x) && p(x)` */
  function Both<T>(keep: T -> bool, p: T -> bool): T -> bool
  {
    x => keep(x) && p(x)
  }

  /** Finding in a filtered list is finding the first element that passes both tests. */
  lemma {:induction false} FindInFiltered<T>(xs: seq<T>, keep: T -> bool, p: T -> bool)
    ensures Find(Filter(xs, keep), p) == Find(xs, Both(keep, p))
  {
    if |xs| > 0 {
      FindInFiltered(xs[1..], keep, p);
      if keep(xs[0]) {
        assert Filter(xs, keep) == [xs[0]] + Filter(xs[1..], keep);
        assert ([xs[0]] + Filter(xs[1..], keep))[1..] == Filter(xs[1..], keep);
      }
    }
  }

  /** `Find` with `Both(keep, p)`, stated with the two tests apart. */
  lemma FindBoth<T>(xs: seq<T>, keep: T -> bool, p: T -> bool)
    ensures var r := Find(xs, Both(keep, p));
      && (r.Some? ==> exists i :: (0 <= i < |xs| && xs[i] == r.value && keep(xs[i]) && p(xs[i])
            && forall l :: 0 <= l < i ==> !(keep(xs[l]) && p(xs[l]))))
      && (r.None? <==> forall i :: 0 <= i < |xs| ==> !(keep(xs[i]) && p(xs[i])))
  {
    var both := Both(keep, p);
    var r := Find(xs, both);
    if r.Some? {
      var i :| 0 <= i < |xs| && xs[i] == r.value && both(xs[i]) && forall j :: 0 <= j < i ==> !both(xs[j]);
      assert forall l :: 0 <= l < i ==> !(keep(xs[l]) && p(xs[l])) by {
        forall l | 0 <= l < i ensures !(keep(xs[l]) && p(xs[l])) {
          assert !both(xs[l]);
        }
      }
    } else {
      forall i | 0 <= i < |xs| ensures !(keep(xs[i]) && p(xs[i])) {
        assert !both(xs[i]);
      }
    }
  }

  /**
   * The matched event trigger is the first event trigger of the list with the requested id, for
   * an "open_questionnaire" event with an id, and the first with the event's name otherwise;
   * there is none exactly when no event trigger qualifies.
   */
  lemma MatchEventTriggerSpec(triggers: seq<QuestionnaireTrigger>, eventName: string, triggerId: Option<int>)
    ensures var r := MatchEventTrigger(triggers, eventName, triggerId);
      var byId := eventName == OpenQuestionnaireEvent && triggerId.Some?;
      var p := if byId then HasTriggerId(triggerId.value) else HasEventName(eventName);
      && (r.Some? ==> exists i :: (0 <= i < |triggers| && triggers[i] == r.value
            && IsEventTrigger(triggers[i]) && p(triggers[i])
            && forall l :: 0 <= l < i ==> !(IsEventTrigger(triggers[l]) && p(triggers[l]))))
      && (r.None? <==> forall i :: 0 <= i < |triggers| ==> !(IsEventTrigger(triggers[i]) && p(triggers[i])))
  {
    var byId := eventName == OpenQuestionnaireEvent && triggerId.Some?;
    var p := if byId then HasTriggerId(triggerId.value) else HasEventName(eventName);
    assert MatchEventTrigger(triggers, eventName, triggerId) == Find(Filter(triggers, IsEventTrigger), p);
    FindInFiltered(triggers, IsEventTrigger, p);
    FindBoth(triggers, IsEventTrigger, p);
  }

  /**
   * An event pushes at most one trigger: only a "put_notification_trigger" event with a trigger
   * id does, for the first floating-widget trigger of that id, passing the event's source id on;
   * it pushes exactly when there is such a trigger.
   */
  lemma PushActionSpec(triggers: seq<QuestionnaireTrigger>, eventName: string, sourceId: Option<int>,
                       triggerId: Option<int>)
    ensures var a := PushAction(triggers, eventName, sourceId, triggerId);
      && |a| <= 1
      && (|a| == 1 <==> (eventName == PutNotificationTriggerEvent && triggerId.Some?
            && exists i :: 0 <= i < |triggers| && IsWidgetTrigger(triggers[i]) && triggers[i].id == triggerId.value))
      && (|a| == 1 ==> a[0] == PushNotificationTrigger(triggerId.value, sourceId))
  {
    if eventName == PutNotificationTriggerEvent && triggerId.Some? {
      var p := HasTriggerId(triggerId.value);
      FindInFiltered(triggers, IsWidgetTrigger, p);
      var f := Find(triggers, Both(IsWidgetTrigger, p));
      if f.Some? {
        var i :| 0 <= i < |triggers| && triggers[i] == f.value && Both(IsWidgetTrigger, p)(triggers[i]);
      } else {
        forall i | 0 <= i < |triggers|
          ensures !(IsWidgetTrigger(triggers[i]) && triggers[i].id == triggerId.value)
        {
          assert !Both(IsWidgetTrigger, p)(triggers[i]);
        }
      }
    }
  }

  /** The record that handleEventPushedNotificationTrigger inserts, and whether it pushes it at once. */
  datatype RuleBasedNotification = RuleBasedNotification(trigger: NotificationTrigger, pushNow: bool)

  /**
   * handleEventPushedNotificationTrigger, with the two tables as maps: the pending questionnaire
   * the event came from names its notification trigger, and a new Planned, RuleBased notification
   * is made from the widget trigger in that notification's time bucket. Nothing is made when the
   * source id is missing or either lookup finds nothing.
   */
  function PushedNotificationTrigger(w: QuestionnaireTrigger, sourceId: Option<int>,
                                     pendingTriggerUid: map<int, Option<int>>,
                                     notifications: map<int, NotificationTrigger>,
                                     uid: int, now: int): Option<RuleBasedNotification>
    requires IsWidgetTrigger(w)
  {
    if sourceId.None? || sourceId.value !in pendingTriggerUid then None
    else
      var sourceUid := pendingTriggerUid[sourceId.value];
      if sourceUid.None? || sourceUid.value !in notifications then None
      else
        var source := notifications[sourceUid.value];
        var c := w.config.widget;
        var n := NotificationTrigger(uid, now, c.name, Planned, now, c.priority, source.timeBucket, c.modality,
          RuleBased, w.questionnaireId, w.json, None, None, None, None, now);
        Some(RuleBasedNotification(n, c.modality == Push))
  }

  /**
   * A notification is made exactly when the source pending questionnaire and its notification
   * trigger are both found; it is Planned and valid from now, RuleBased whatever the widget
   * configuration says, in the source notification's bucket, carries the widget trigger's name,
   * priority, modality and questionnaire, and is pushed at once exactly for the Push modality.
   */
  lemma PushedNotificationTriggerSpec(w: QuestionnaireTrigger, sourceId: Option<int>,
                                      pendingTriggerUid: map<int, Option<int>>,
                                      notifications: map<int, NotificationTrigger>, uid: int, now: int)
    requires IsWidgetTrigger(w)
    ensures var r := PushedNotificationTrigger(w, sourceId, pendingTriggerUid, notifications, uid, now);
      && (r.Some? <==>
            && sourceId.Some? && sourceId.value in pendingTriggerUid
            && pendingTriggerUid[sourceId.value].Some?
            && pendingTriggerUid[sourceId.value].value in notifications)
      && (r.Some? ==>
            var n := r.value.trigger;
            var c := w.config.widget;
            && n.status == Planned && n.source == RuleBased && n.uid == uid
            && n.addedAt == now && n.validFrom == now && n.updatedAt == now
            && n.timeBucket == notifications[pendingTriggerUid[sourceId.value].value].timeBucket
            && n.name == c.name && n.priority == c.priority && n.modality == c.modality
            && n.questionnaireId == w.questionnaireId && n.triggerJson == w.json
            && n.plannedAt.None? && n.pushedAt.None? && n.displayedAt.None? && n.answeredAt.None?
            && (r.value.pushNow <==> c.modality == Push))
  {
  }

  /** The handler's cache of the study's questionnaire triggers. */
  class Handler {
    var triggers: seq<QuestionnaireTrigger>

    constructor ()
      ensures triggers == []
    {
      triggers := [];
    }

    /**
     * initializeTriggers: a handler that holds triggers keeps them; an empty one takes the
     * triggers of every stored questionnaire, in order.
     */
    method InitializeTriggers(questionnaires: seq<seq<QuestionnaireTrigger>>)
      modifies this
      ensures old(triggers) != [] ==> triggers == old(triggers)
      ensures old(triggers) == [] ==> triggers == Flatten(questionnaires)
    {
      if triggers != [] {
        return;
      }
      triggers := Flatten(questionnaires);
    }
  }

  /** `flatMap { it.triggers }` */
  function Flatten(xss: seq<seq<QuestionnaireTrigger>>): seq<QuestionnaireTrigger>
  {
    if |xss| == 0 then [] else xss[0] + Flatten(xss[1..])
  }

  /** The flattened list holds exactly the triggers of the questionnaires. */
  lemma {:induction false} FlattenMembers(xss: seq<seq<QuestionnaireTrigger>>, t: QuestionnaireTrigger)
    ensures t in Flatten(xss) <==> exists i :: 0 <= i < |xss| && t in xss[i]
  {
    if |xss| > 0 {
      FlattenMembers(xss[1..], t);
      assert forall i :: 1 <= i < |xss| ==> xss[i] == xss[1..][i - 1];
      if t in Flatten(xss[1..]) {
        var i :| 0 <= i < |xss[1..]| && t in xss[1..][i];
        assert t in xss[i + 1];
      }
    }
  }

  /**
   * Initialising twice is initialising once when the first call found triggers; a handler whose
   * questionnaires hold no trigger stays empty and reads them again next time.
   */
  method InitializeTwice(h: Handler, first: seq<seq<QuestionnaireTrigger>>, second: seq<seq<QuestionnaireTrigger>>)
    requires h.triggers == []
    modifies h
    ensures Flatten(first) != [] ==> h.triggers == Flatten(first)
    ensures Flatten(first) == [] ==> h.triggers == Flatten(second)
  {
    h.InitializeTriggers(first);
    h.InitializeTriggers(second);
  }

  // ---------------------------------------------------------------------------------------------
  // Random EMA notifications
  // ---------------------------------------------------------------------------------------------

  /** A questionnaire trigger of the random-EMA kind (RandomEMAQuestionnaireTrigger). */
  type RandomEmaTrigger = t: QuestionnaireTrigger | t.config.RandomEma?
    witness QuestionnaireTrigger(0, 0, 0, false, RandomEma(0, 0, 0, "", ""), "")

  /** Kotlin's `x / 2` on Int: the quotient rounded toward zero. */
  function HalfTowardZero(x: int): (r: int)
    ensures x >= 0 ==> 0 <= 2 * r <= x && x - 2 * r < 2
    ensures x < 0 ==> x <= 2 * r <= 0 && 2 * r - x < 2
  {
    if x >= 0 then x / 2 else -((-x) / 2)
  }

  /** `(lo..hi).random()`: a value of the closed range picked by the draw; None (Kotlin throws) when it is empty. */
  function RandomInRange(raw: int, lo: int, hi: int): (r: Option<int>)
    ensures r.Some? <==> lo <= hi
    ensures r.Some? ==> lo <= r.value <= hi
  {
    if lo > hi then None else Some(lo + raw % (hi - lo + 1))
  }

  /**
   * The minutes one round of getCalendarForNextRandomNotification adds: the distance plus a
   * random offset within half the tolerance either way, as a Kotlin Int. None where the range of
   * offsets is empty (a tolerance below -1).
   */
  function MinutesToAdd(cfg: Config, raw: int): Option<int>
    requires cfg.RandomEma?
  {
    var half := HalfTowardZero(cfg.randomToleranceMinutes);
    match RandomInRange(raw, -half, half)
    case None => None
    case Some(offset) => Some(Wrap32(cfg.distanceMinutes + offset))
  }

  /** The random offset lies within half the tolerance either way, and there is one exactly for a tolerance of -1 or more. */
  lemma MinutesToAddBounds(cfg: Config, raw: int)
    requires cfg.RandomEma?
    requires IntMin <= cfg.distanceMinutes - HalfTowardZero(cfg.randomToleranceMinutes)
    requires cfg.distanceMinutes + HalfTowardZero(cfg.randomToleranceMinutes) <= IntMax
    ensures MinutesToAdd(cfg, raw).Some? <==> cfg.randomToleranceMinutes >= -1
    ensures MinutesToAdd(cfg, raw).Some? ==>
      var half := HalfTowardZero(cfg.randomToleranceMinutes);
      cfg.distanceMinutes - half <= MinutesToAdd(cfg, raw).value <= cfg.distanceMinutes + half
  {
    var half := HalfTowardZero(cfg.randomToleranceMinutes);
    var o := RandomInRange(raw, -half, half);
    if o.Some? {
      Wrap32InRange(cfg.distanceMinutes + o.value);
    }
  }

  /**
   * isInTimeBucket: whether the hour of `t` lies in the half-open range of the bucket's start and
   * end hours; None where Kotlin throws on a bucket text that does not parse.
   */
  function IsInTimeBucket(t: int, bucket: string): Option<bool>
  {
    match BucketedWidget.HourBounds(bucket)
    case None => None
    case Some((start, end)) => Some(start <= Clock.HourOfDay(t) < end)
  }

  /**
   * For a bucket text "HH:MM-HH:MM" the answer is whether startHour <= hour < endHour: the
   * minutes of the bucket and of the time play no part, so two times in the same hour agree.
   */
  lemma IsInTimeBucketHours(t: int, b: BucketedWidget.BucketTimes)
    requires BucketedWidget.InRange(b)
    ensures IsInTimeBucket(t, BucketedWidget.FormatBucket(b)) == Some(b.startHour <= Clock.HourOfDay(t) < b.endHour)
    ensures forall u :: Clock.HourOfDay(u) == Clock.HourOfDay(t) ==>
      IsInTimeBucket(u, BucketedWidget.FormatBucket(b)) == IsInTimeBucket(t, BucketedWidget.FormatBucket(b))
  {
    BucketedWidget.ParseFormatted(b);
  }

  /**
   * The bucket's start as the restart reads it: `split(":")[0]` for the hour and
   * `split(":")[1].split("-")[0]` for the minute; None where Kotlin throws.
   */
  function BucketStart(bucket: string): Option<(int, int)>
  {
    var parts := Split(bucket, ':');
    if |parts| < 2 then None
    else
      var hour := ParseInt(parts[0]);
      var minute := ParseInt(Split(parts[1], '-')[0]);
      if hour.Some? && minute.Some? then Some((hour.value, minute.value)) else None
  }

  /** A bucket text "HH:MM-HH:MM" restarts at its start hour and minute. */
  lemma BucketStartFormatted(b: BucketedWidget.BucketTimes)
    requires BucketedWidget.InRange(b)
    ensures BucketStart(BucketedWidget.FormatBucket(b)) == Some((b.startHour, b.startMinute))
  {
    var sh := TwoDigits(b.startHour);
    var sm := TwoDigits(b.startMinute);
    var eh := TwoDigits(b.endHour);
    var em := TwoDigits(b.endMinute);
    ParseTwoDigits(b.startHour);
    ParseTwoDigits(b.startMinute);
    ParseTwoDigits(b.endHour);
    var middle := sm + "-" + eh;
    assert BucketedWidget.FormatBucket(b) == sh + [':'] + (middle + [':'] + em);
    SplitPrefix(sh, middle + [':'] + em, ':');
    assert ':' !in middle;
    SplitPrefix(middle, em, ':');
    var parts := Split(BucketedWidget.FormatBucket(b), ':');
    assert parts[0] == sh && parts[1] == middle;
    assert middle == sm + ['-'] + eh;
    SplitPrefix(sm, eh, '-');
  }

  /** The outcome of the search for the next random notification time. */
  datatype Search =
    | Found(time: int)
    /** Kotlin throws: an empty random range or a bucket text that does not parse. */
    | Throws
    /** The rounds the model allows ran out; the source keeps recursing. */
    | OutOfRounds

  /**
   * getCalendarForNextRandomNotification, allowed `rounds` rounds: round j uses draw `k + j`. A
   * round adds the minutes to the current time; if the result is outside the bucket it takes
   * the minutes back, moves to the next day, sets the bucket's start hour and minute (keeping
   * the seconds) and goes again.
   */
  function NextRandomTime(tr: RandomEmaTrigger, current: int, draws: nat -> int, k: nat, rounds: nat): Search
    decreases rounds
  {
    if rounds == 0 then OutOfRounds
    else
      var cfg := tr.config;
      match MinutesToAdd(cfg, draws(k))
      case None => Throws
      case Some(minutes) =>
        var next := current + minutes * Clock.MsPerMinute;
        match IsInTimeBucket(next, cfg.timeBucket)
        case None => Throws
        case Some(inBucket) =>
          if inBucket then Found(next)
          else
            match BucketStart(cfg.timeBucket)
            case None => Throws
            case Some((hour, minute)) =>
              var back := next + Wrap32(-minutes) * Clock.MsPerMinute;
              NextRandomTime(tr, Clock.AtHourMinute(back + Clock.MsPerDay, hour, minute), draws, k + 1, rounds - 1)
  }

  /** When the first round lands in the bucket, its time is the answer. */
  lemma NextRandomTimeFirstRound(tr: RandomEmaTrigger, current: int, draws: nat -> int, k: nat, rounds: nat)
    requires rounds > 0
    requires MinutesToAdd(tr.config, draws(k)).Some?
    requires IsInTimeBucket(current + MinutesToAdd(tr.config, draws(k)).value * Clock.MsPerMinute,
                            tr.config.timeBucket) == Some(true)
    ensures NextRandomTime(tr, current, draws, k, rounds)
         == Found(current + MinutesToAdd(tr.config, draws(k)).value * Clock.MsPerMinute)
  {
  }

  /**
   * When the first round lands outside a bucket "HH:MM-HH:MM", the search goes on from the next
   * day at the bucket's start, with the current time's seconds, using the next draw.
   */
  lemma NextRandomTimeRestarts(tr: RandomEmaTrigger, b: BucketedWidget.BucketTimes, current: int,
                               draws: nat -> int, k: nat, rounds: nat)
    requires BucketedWidget.InRange(b) && tr.config.timeBucket == BucketedWidget.FormatBucket(b)
    requires rounds > 0
    requires MinutesToAdd(tr.config, draws(k)).Some? && MinutesToAdd(tr.config, draws(k)).value != IntMin
    requires IsInTimeBucket(current + MinutesToAdd(tr.config, draws(k)).value * Clock.MsPerMinute,
                            tr.config.timeBucket) == Some(false)
    ensures var start := Clock.AtHourMinute(current + Clock.MsPerDay, b.startHour, b.startMinute);
      && Clock.DayStart(start) == Clock.DayStart(current) + Clock.MsPerDay
      && Clock.HourOfDay(start) == b.startHour && Clock.MinuteOfHour(start) == b.startMinute
      && start % Clock.MsPerMinute == current % Clock.MsPerMinute
      && NextRandomTime(tr, current, draws, k, rounds) == NextRandomTime(tr, start, draws, k + 1, rounds - 1)
  {
    var m := MinutesToAdd(tr.config, draws(k)).value;
    var next := current + m * Clock.MsPerMinute;
    NegateInt(m);
    var back := next + Wrap32(-m) * Clock.MsPerMinute;
    assert back == current;
    BucketStartFormatted(b);
    RestartPoint(current, b.startHour, b.startMinute);
    var start := Clock.AtHourMinute(current + Clock.MsPerDay, b.startHour, b.startMinute);
    assert NextRandomTime(tr, current, draws, k, rounds) == NextRandomTime(tr, start, draws, k + 1, rounds - 1);
  }

  /** Kotlin's `-m` on an Int other than Int.MIN_VALUE does not wrap. */
  lemma NegateInt(m: int)
    requires IntMin < m <= IntMax
    ensures Wrap32(-m) == -m
  {
    Wrap32InRange(-m);
  }

  /** The bucket start on the day after `t` keeps the seconds of `t`. */
  lemma RestartPoint(t: int, hour: int, minute: int)
    requires 0 <= hour < 24 && 0 <= minute < 60
    ensures var s := Clock.AtHourMinute(t + Clock.MsPerDay, hour, minute);
      && Clock.DayStart(s) == Clock.DayStart(t) + Clock.MsPerDay
      && Clock.HourOfDay(s) == hour && Clock.MinuteOfHour(s) == minute
      && s % Clock.MsPerMinute == t % Clock.MsPerMinute
  {
    Clock.ShiftByDays(t, 1);
    Clock.AtHourMinuteReadBack(t + Clock.MsPerDay, hour, minute);
    Clock.ShiftKeepsSeconds(t, 1440);
  }

  /** `s` is the bucket start, at the hour and minute given, on a day after that of `t`, with the seconds of `t`. */
  predicate LaterStart(s: int, t: int, hour: int, minute: int)
  {
    && Clock.DayStart(s) > Clock.DayStart(t)
    && Clock.HourOfDay(s) == hour && Clock.MinuteOfHour(s) == minute
    && s % Clock.MsPerMinute == t % Clock.MsPerMinute
  }

  /** A round from `start` can reach `time`: it is the distance plus an offset of at most half the tolerance later. */
  predicate RoundReaches(cfg: Config, start: int, time: int)
    requires cfg.RandomEma?
  {
    var half := HalfTowardZero(cfg.randomToleranceMinutes);
    && start + (cfg.distanceMinutes - half) * Clock.MsPerMinute <= time
    && time <= start + (cfg.distanceMinutes + half) * Clock.MsPerMinute
    && (time - start) % Clock.MsPerMinute == 0
  }

  /** The found time comes from a round started now or at the bucket start of a later day. */
  ghost predicate FoundFrom(tr: RandomEmaTrigger, b: BucketedWidget.BucketTimes, current: int, time: int)
  {
    exists start :: StartOf(start, current, b) && RoundReaches(tr.config, start, time)
  }

  /** Where a round may start: now, or the bucket start on a later day with the current seconds. */
  predicate StartOf(start: int, current: int, b: BucketedWidget.BucketTimes)
  {
    start == current || LaterStart(start, current, b.startHour, b.startMinute)
  }

  /**
   * For a bucket "HH:MM-HH:MM" and minutes that fit a Kotlin Int, a found time lies in the
   * bucket's hours, and it is distance ± half the tolerance minutes after either the current time
   * or the bucket's start on a later day.
   */
  lemma {:induction false} NextRandomTimeSound(tr: RandomEmaTrigger, b: BucketedWidget.BucketTimes, current: int,
                                               draws: nat -> int, k: nat, rounds: nat)
    requires BucketedWidget.InRange(b) && tr.config.timeBucket == BucketedWidget.FormatBucket(b)
    requires IntMin < tr.config.distanceMinutes - HalfTowardZero(tr.config.randomToleranceMinutes)
    requires tr.config.distanceMinutes + HalfTowardZero(tr.config.randomToleranceMinutes) <= IntMax
    ensures var r := NextRandomTime(tr, current, draws, k, rounds);
      r.Found? ==>
        && b.startHour <= Clock.HourOfDay(r.time) < b.endHour
        && FoundFrom(tr, b, current, r.time)
    decreases rounds
  {
    var r := NextRandomTime(tr, current, draws, k, rounds);
    if rounds > 0 && r.Found? {
      var m := MinutesToAdd(tr.config, draws(k)).value;
      var next := current + m * Clock.MsPerMinute;
      IsInTimeBucketHours(next, b);
      if IsInTimeBucket(next, tr.config.timeBucket) == Some(true) {
        NextRandomTimeFirstRound(tr, current, draws, k, rounds);
        FirstRoundReaches(tr, b, current, draws(k));
      } else {
        MinutesToAddBounds(tr.config, draws(k));
        NextRandomTimeRestarts(tr, b, current, draws, k, rounds);
        var s := Clock.AtHourMinute(current + Clock.MsPerDay, b.startHour, b.startMinute);
        NextRandomTimeSound(tr, b, s, draws, k + 1, rounds - 1);
        LaterRoundReaches(tr, b, current, s, r.time);
      }
    }
  }

  /** A time the first round reaches comes from a round started now. */
  lemma FirstRoundReaches(tr: RandomEmaTrigger, b: BucketedWidget.BucketTimes, current: int, raw: int)
    requires IntMin < tr.config.distanceMinutes - HalfTowardZero(tr.config.randomToleranceMinutes)
    requires tr.config.distanceMinutes + HalfTowardZero(tr.config.randomToleranceMinutes) <= IntMax
    requires MinutesToAdd(tr.config, raw).Some?
    ensures FoundFrom(tr, b, current, current + MinutesToAdd(tr.config, raw).value * Clock.MsPerMinute)
  {
    MinutesToAddBounds(tr.config, raw);
    var m := MinutesToAdd(tr.config, raw).value;
    var half := HalfTowardZero(tr.config.randomToleranceMinutes);
    var time := current + m * Clock.MsPerMinute;
    Clock.DivModUnique(m, 0, Clock.MsPerMinute);
    MinutesScale(tr.config.distanceMinutes - half, m);
    MinutesScale(m, tr.config.distanceMinutes + half);
    assert StartOf(current, current, b);
    assert RoundReaches(tr.config, current, time);
  }

  /** Whole minutes keep their order in milliseconds. */
  lemma MinutesScale(lo: int, hi: int)
    requires lo <= hi
    ensures lo * Clock.MsPerMinute <= hi * Clock.MsPerMinute
  {
  }

  /** A time reached from a later bucket start of a later bucket start is reached from a later bucket start. */
  lemma LaterRoundReaches(tr: RandomEmaTrigger, b: BucketedWidget.BucketTimes, current: int, s: int, time: int)
    requires LaterStart(s, current, b.startHour, b.startMinute)
    requires FoundFrom(tr, b, s, time)
    ensures FoundFrom(tr, b, current, time)
  {
    var start :| StartOf(start, s, b) && RoundReaches(tr.config, start, time);
    assert StartOf(start, current, b);
  }

  /**
   * A bucket whose end hour is not after its start hour ("10:15-10:45", say) holds no hour: the
   * search never finds a time, and the source's recursion does not end.
   */
  lemma EmptyHourRangeNeverFound(tr: RandomEmaTrigger, b: BucketedWidget.BucketTimes, current: int,
                                 draws: nat -> int, k: nat, rounds: nat)
    requires BucketedWidget.InRange(b) && tr.config.timeBucket == BucketedWidget.FormatBucket(b)
    requires b.endHour <= b.startHour
    requires IntMin < tr.config.distanceMinutes - HalfTowardZero(tr.config.randomToleranceMinutes)
    requires tr.config.distanceMinutes + HalfTowardZero(tr.config.randomToleranceMinutes) <= IntMax
    ensures !NextRandomTime(tr, current, draws, k, rounds).Found?
  {
    NextRandomTimeSound(tr, b, current, draws, k, rounds);
  }

  // ---------------------------------------------------------------------------------------------
  // Periodic questionnaires
  // ---------------------------------------------------------------------------------------------

  /** shouldScheduleOnSameDay: today at hour:minute, with the current seconds, is later than now. */
  function ShouldScheduleOnSameDay(now: int, hour: int, minute: int): bool
  {
    Clock.AtHourMinute(now, hour, minute) > now
  }

  /** It holds exactly when hour:minute is later than the current hour and minute. */
  lemma ShouldScheduleOnSameDayIffLater(now: int, hour: int, minute: int)
    ensures ShouldScheduleOnSameDay(now, hour, minute)
        <==> hour * 60 + minute > Clock.HourOfDay(now) * 60 + Clock.MinuteOfHour(now)
  {
    Clock.DayOffsetDecomposes(now);
    var diff := (hour * 60 + minute) - (Clock.HourOfDay(now) * 60 + Clock.MinuteOfHour(now));
    assert Clock.AtHourMinute(now, hour, minute) - now == diff * Clock.MsPerMinute;
  }

  /**
   * calculateNextNotificationTime: hour:minute set on the calendar's day, one day added, and the
   * date, hour and minute of that copied onto a fresh Calendar read at `clock`, which keeps the
   * seconds of `clock`.
   */
  function CalculateNextNotificationTime(t: int, hour: int, minute: int, clock: int): int
  {
    var selected := Clock.AtHourMinute(t, hour, minute) + Clock.MsPerDay;
    Clock.DayStart(selected) + Clock.HourOfDay(selected) * Clock.MsPerHour
      + Clock.MinuteOfHour(selected) * Clock.MsPerMinute + clock % Clock.MsPerMinute
  }

  /** For an in-range hour and minute the result is that hour and minute on the next day. */
  lemma CalculateNextNotificationTimeNextDay(t: int, hour: int, minute: int, clock: int)
    requires 0 <= hour < 24 && 0 <= minute < 60
    ensures var r := CalculateNextNotificationTime(t, hour, minute, clock);
      && Clock.DayStart(r) == Clock.DayStart(t) + Clock.MsPerDay
      && Clock.HourOfDay(r) == hour && Clock.MinuteOfHour(r) == minute
      && r % Clock.MsPerMinute == clock % Clock.MsPerMinute
  {
    var at := Clock.AtHourMinute(t, hour, minute);
    var selected := at + Clock.MsPerDay;
    Clock.AtHourMinuteReadBack(t, hour, minute);
    Clock.ShiftByDays(at, 1);
    assert selected % Clock.MsPerDay == at % Clock.MsPerDay;
    Clock.ModMod(selected, Clock.MsPerHour, 24);
    Clock.ModMod(at, Clock.MsPerHour, 24);
    assert Clock.HourOfDay(selected) == hour;
    assert Clock.MinuteOfHour(selected) == minute;
    Clock.ReadBack(Clock.DayStart(selected), hour, minute, clock % Clock.MsPerMinute);
  }

  /** NextNotification */
  datatype NextNotification = NextNotification(time: int, remainingDays: int)

  /**
   * getNextNotification: on the first day of the study (total == remaining) and before today's
   * hour:minute the alarm is today, otherwise tomorrow; the remaining days count one down.
   */
  function GetNextNotification(now: int, hour: int, minute: int, totalDays: int, remainingDays: int,
                               clock: int): NextNotification
  {
    var time :=
      if totalDays == remainingDays && ShouldScheduleOnSameDay(now, hour, minute) then
        CalculateNextNotificationTime(now - Clock.MsPerDay, hour, minute, clock)
      else CalculateNextNotificationTime(now, hour, minute, clock);
    NextNotification(time, Wrap32(remainingDays - 1))
  }

  /**
   * The next notification counts the days one down, and for an in-range hour:minute falls on
   * today exactly when it is the first day and that time is still ahead, else on tomorrow,
   * always at hour:minute.
   */
  lemma GetNextNotificationSpec(now: int, hour: int, minute: int, totalDays: int, remainingDays: int, clock: int)
    requires 0 <= hour < 24 && 0 <= minute < 60
    requires IntMin < remainingDays <= IntMax
    ensures var r := GetNextNotification(now, hour, minute, totalDays, remainingDays, clock);
      var today := totalDays == remainingDays && hour * 60 + minute > Clock.HourOfDay(now) * 60 + Clock.MinuteOfHour(now);
      && r.remainingDays == remainingDays - 1
      && Clock.DayStart(r.time) == Clock.DayStart(now) + (if today then 0 else Clock.MsPerDay)
      && Clock.HourOfDay(r.time) == hour && Clock.MinuteOfHour(r.time) == minute
  {
    ShouldScheduleOnSameDayIffLater(now, hour, minute);
    CalculateNextNotificationTimeNextDay(now - Clock.MsPerDay, hour, minute, clock);
    CalculateNextNotificationTimeNextDay(now, hour, minute, clock);
    Clock.ShiftByDays(now, -1);
    Wrap32InRange(remainingDays - 1);
  }

  /** The alarm scheduleNextPeriodicNotification sets. */
  datatype PeriodicAlarm = PeriodicAlarm(requestCode: int, time: int, remainingDays: int, totalDays: int, title: string)

  /** What scheduleNextPeriodicNotification does. */
  datatype PeriodicOutcome = NoAlarm | Alarm(alarm: PeriodicAlarm) | TimeUnreadable

  /** The hour and minute of a trigger's "HH:MM" time as `split(":")[0]` and `[1]`; None where Kotlin throws. */
  function ScheduleTime(time: string): Option<(int, int)>
  {
    var parts := Split(time, ':');
    if |parts| < 2 then None
    else
      var hour := ParseInt(parts[0]);
      var minute := ParseInt(parts[1]);
      if hour.Some? && minute.Some? then Some((hour.value, minute.value)) else None
  }

  /**
   * scheduleNextPeriodicNotification: nothing when no study day remains; otherwise an alarm at
   * the next notification time, under the trigger's id as request code, carrying the remaining
   * days after it and the total.
   */
  function ScheduleNextPeriodicNotification(tr: QuestionnaireTrigger, totalDays: int, remainingDays: int,
                                            title: string, now: int, clock: int): PeriodicOutcome
    requires tr.config.Periodic?
  {
    if remainingDays <= 0 then NoAlarm
    else
      match ScheduleTime(tr.config.time)
      case None => TimeUnreadable
      case Some((hour, minute)) =>
        var next := GetNextNotification(now, hour, minute, totalDays, remainingDays, clock);
        Alarm(PeriodicAlarm(tr.id, next.time, next.remainingDays, totalDays, title))
  }

  /**
   * No alarm is set when no study day remains; with days remaining and a readable "HH:MM" time
   * in range the alarm is under the trigger's id, counts one day down, keeps the total and
   * rings at hour:minute today (first day, time still ahead) or tomorrow.
   */
  lemma ScheduleNextPeriodicNotificationSpec(tr: QuestionnaireTrigger, totalDays: int, remainingDays: int,
                                             title: string, now: int, clock: int)
    requires tr.config.Periodic?
    requires remainingDays <= IntMax
    ensures var r := ScheduleNextPeriodicNotification(tr, totalDays, remainingDays, title, now, clock);
      && (remainingDays <= 0 <==> r.NoAlarm?)
      && (r.TimeUnreadable? <==> remainingDays > 0 && ScheduleTime(tr.config.time).None?)
      && (r.Alarm? && 0 <= ScheduleTime(tr.config.time).value.0 < 24 && 0 <= ScheduleTime(tr.config.time).value.1 < 60 ==>
            var (hour, minute) := ScheduleTime(tr.config.time).value;
            var today := totalDays == remainingDays && hour * 60 + minute > Clock.HourOfDay(now) * 60 + Clock.MinuteOfHour(now);
            && r.alarm.requestCode == tr.id && r.alarm.title == title
            && r.alarm.remainingDays == remainingDays - 1 && r.alarm.totalDays == totalDays
            && Clock.DayStart(r.alarm.time) == Clock.DayStart(now) + (if today then 0 else Clock.MsPerDay)
            && Clock.HourOfDay(r.alarm.time) == hour && Clock.MinuteOfHour(r.alarm.time) == minute)
  {
    var st := ScheduleTime(tr.config.time);
    if remainingDays > 0 && st.Some? {
      var (hour, minute) := st.value;
      if 0 <= hour < 24 && 0 <= minute < 60 {
        GetNextNotificationSpec(now, hour, minute, totalDays, remainingDays, clock);
      }
    }
  }
}
