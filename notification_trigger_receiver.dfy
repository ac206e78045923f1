/**
 * The alarm receiver that delivers a planned push notification: it takes the currently valid
 * notification trigger, pushes it when it is a planned push, and stores it as pushed.
 *
 * The current trigger is the scheduler's `getLatestValidTriggerForTime` for the clock reading,
 * given here as `current`. The trigger's stored JSON is read by `decode`, which gives None where
 * the JSON decoder throws. The questionnaires' triggers are those of the stored settings. The
 * notification_trigger table is the `database` object; a shown notification is recorded with the
 * trigger and the timeout it was given.
 */
module NotificationTriggerReceiving {
  import opened Wrappers
  import opened Triggers
  import EsmHandler

  /** `shouldSendPush` */
  predicate ShouldSendPush(trigger: NotificationTrigger)
  {
    trigger.modality == Push && trigger.status == Planned
  }

  /** `setPushed`: the trigger as stored after it was pushed at `now`. */
  function SetPushed(trigger: NotificationTrigger, now: int): (r: NotificationTrigger)
    ensures r.status == Pushed && r.pushedAt == Some(now) && r.updatedAt == now
    ensures r.(status := trigger.status, pushedAt := trigger.pushedAt, updatedAt := trigger.updatedAt) == trigger
  {
    trigger.(status := Pushed, pushedAt := Some(now), updatedAt := now)
  }

  /** A pushed trigger is not pushed again. */
  lemma PushedOnlyOnce(trigger: NotificationTrigger, now: int)
    ensures ShouldSendPush(trigger) ==> !ShouldSendPush(SetPushed(trigger, now))
    ensures !ShouldSendPush(SetPushed(trigger, now))
  {
  }

  function HasId(id: int): QuestionnaireTrigger -> bool
  {
    (t: QuestionnaireTrigger) => t.id == id
  }

  /** The first trigger with the id among the questionnaires' triggers. */
  function FindTrigger(triggers: seq<QuestionnaireTrigger>, id: int): (r: Option<QuestionnaireTrigger>)
    ensures r.Some? ==> r.value in triggers && r.value.id == id
    ensures r.Some? ==> exists i :: 0 <= i < |triggers| && triggers[i] == r.value
                                    && forall j :: 0 <= j < i ==> triggers[j].id != id
    ensures r.None? <==> forall i :: 0 <= i < |triggers| ==> triggers[i].id != id
  {
    if |triggers| == 0 then None
    else if triggers[0].id == id then Some(triggers[0])
    else
      var r := FindTrigger(triggers[1..], id);
      assert forall i :: 1 <= i < |triggers| ==> triggers[i] == triggers[1..][i - 1];
      if r.Some? then
        assert exists i :: 0 <= i < |triggers| && triggers[i] == r.value && forall j :: 0 <= j < i ==> triggers[j].id != id by {
          var k :| 0 <= k < |triggers[1..]| && triggers[1..][k] == r.value && forall j :: 0 <= j < k ==> triggers[1..][j].id != id;
          assert triggers[k + 1] == r.value;
          forall j | 0 <= j < k + 1 ensures triggers[j].id != id {
            if j > 0 {
              assert triggers[j] == triggers[1..][j - 1];
            }
          }
        }
        r
      else r
  }

  /**
   * `getTimeout`: the delay, in minutes, of the timeout trigger a floating-widget trigger links to,
   * when that trigger exists and is a floating-widget trigger itself; None otherwise.
   */
  function GetTimeout(trigger: QuestionnaireTrigger, questionnaireTriggers: seq<seq<QuestionnaireTrigger>>): (r: Option<int>)
    ensures r.Some? <==>
      && trigger.config.FloatingWidget?
      && trigger.config.widget.timeoutNotificationTriggerId.Some?
      && var linked := FindTrigger(EsmHandler.Flatten(questionnaireTriggers), trigger.config.widget.timeoutNotificationTriggerId.value);
         linked.Some? && linked.value.config.FloatingWidget?
    ensures r.Some? ==>
      exists t :: t in EsmHandler.Flatten(questionnaireTriggers) && t.id == trigger.config.widget.timeoutNotificationTriggerId.value
                  && t.config.FloatingWidget? && r.value == t.config.widget.delayMinutes
    ensures r.Some? ==>
      r.value == FindTrigger(EsmHandler.Flatten(questionnaireTriggers), trigger.config.widget.timeoutNotificationTriggerId.value).value.config.widget.delayMinutes
  {
    if trigger.config.FloatingWidget? && trigger.config.widget.timeoutNotificationTriggerId.Some? then
      var linked := FindTrigger(EsmHandler.Flatten(questionnaireTriggers), trigger.config.widget.timeoutNotificationTriggerId.value);
      if linked.Some? && linked.value.config.FloatingWidget? then Some(linked.value.config.widget.delayMinutes)
      else None
    else None
  }

  /** `notificationTriggerDao().update`: the row with the trigger's uid is replaced; other rows stay. */
  function UpdateRow(rows: seq<NotificationTrigger>, trigger: NotificationTrigger): (r: seq<NotificationTrigger>)
    ensures |r| == |rows|
    ensures forall i :: 0 <= i < |rows| ==> r[i] == if rows[i].uid == trigger.uid then trigger else rows[i]
  {
    seq(|rows|, i requires 0 <= i < |rows| => if rows[i].uid == trigger.uid then trigger else rows[i])
  }

  /** A notification as shown: the trigger and its timeout in minutes. */
  datatype Shown = Shown(trigger: NotificationTrigger, timeoutMinutes: Option<int>)

  /** The stored triggers and the notifications shown so far. */
  datatype ReceiverState = ReceiverState(rows: seq<NotificationTrigger>, shown: seq<Shown>)

  /**
   * `onReceive`. Without an intent, or without a current trigger that should be pushed, nothing
   * changes (the second case logs a warning). Otherwise the notification is shown, when there is a
   * context, with the timeout of the trigger, and the trigger is stored as pushed. The timeout is
   * read only when the notification is shown (the safe call skips its arguments otherwise); None
   * when the trigger's JSON cannot be read there.
   */
  function Receive(st: ReceiverState, hasContext: bool, hasIntent: bool, current: Option<NotificationTrigger>,
                   decode: string -> Option<QuestionnaireTrigger>, questionnaireTriggers: seq<seq<QuestionnaireTrigger>>,
                   now: int): Option<ReceiverState>
  {
    if !hasIntent then Some(st)
    else if current.None? || !ShouldSendPush(current.value) then Some(st)
    else
      var trigger := current.value;
      if hasContext && decode(trigger.triggerJson).None? then None
      else
        var shown := if hasContext then st.shown + [Shown(trigger, GetTimeout(decode(trigger.triggerJson).value, questionnaireTriggers))]
                     else st.shown;
        Some(ReceiverState(UpdateRow(st.rows, SetPushed(trigger, now)), shown))
  }

  /**
   * A notification is shown exactly when there is an intent, a context and a current trigger that
   * is a planned push (and its JSON can be read); the trigger is then stored as pushed, at `now`,
   * whether or not there was a context to show it. In every other case nothing changes.
   */
  lemma PushExactlyWhenPlanned(st: ReceiverState, hasContext: bool, hasIntent: bool, current: Option<NotificationTrigger>,
                               decode: string -> Option<QuestionnaireTrigger>, questionnaireTriggers: seq<seq<QuestionnaireTrigger>>,
                               now: int)
    requires Receive(st, hasContext, hasIntent, current, decode, questionnaireTriggers, now).Some?
    ensures var r := Receive(st, hasContext, hasIntent, current, decode, questionnaireTriggers, now).value;
      var due := hasIntent && current.Some? && ShouldSendPush(current.value);
      && (|r.shown| == |st.shown| + 1 <==> due && hasContext)
      && (due && hasContext ==> r.shown[|st.shown|].trigger == current.value)
      && (due ==> forall i :: 0 <= i < |st.rows| && st.rows[i].uid == current.value.uid ==>
                    r.rows[i].status == Pushed && r.rows[i].pushedAt == Some(now) && r.rows[i].updatedAt == now)
      && (due ==> forall i :: 0 <= i < |st.rows| && st.rows[i].uid != current.value.uid ==> r.rows[i] == st.rows[i])
      && (!due ==> r == st)
  {
  }

  /**
   * Two alarms for the same stored trigger push it once: after the first, the stored trigger is
   * no longer a planned push, so a second receive that finds it changes nothing.
   */
  lemma SecondReceiveDoesNotPushAgain(st: ReceiverState, hasContext: bool, trigger: NotificationTrigger,
                                      decode: string -> Option<QuestionnaireTrigger>, questionnaireTriggers: seq<seq<QuestionnaireTrigger>>,
                                      now: int, later: int)
    requires Receive(st, hasContext, true, Some(trigger), decode, questionnaireTriggers, now).Some?
    ensures var mid := Receive(st, hasContext, true, Some(trigger), decode, questionnaireTriggers, now).value;
      ShouldSendPush(trigger) ==>
        Receive(mid, hasContext, true, Some(SetPushed(trigger, now)), decode, questionnaireTriggers, later) == Some(mid)
  {
    PushedOnlyOnce(trigger, now);
  }

  /** The notification_trigger table. */
  class NotificationTriggerTable {
    var rows: seq<NotificationTrigger>

    constructor (rows: seq<NotificationTrigger>)
      ensures this.rows == rows
    {
      this.rows := rows;
    }

    /** `update` */
    method Update(trigger: NotificationTrigger)
      modifies this
      ensures rows == UpdateRow(old(rows), trigger)
    {
      var updated: seq<NotificationTrigger> := [];
      for i := 0 to |rows|
        invariant |updated| == i
        invariant forall j :: 0 <= j < i ==> updated[j] == if rows[j].uid == trigger.uid then trigger else rows[j]
      {
        updated := updated + [if rows[i].uid == trigger.uid then trigger else rows[i]];
      }
      rows := updated;
    }
  }

  /** `NotificationTriggerReceiver` */
  class NotificationTriggerReceiver {
    const database: NotificationTriggerTable
    var shown: seq<Shown>

    function Model(): ReceiverState
      reads this, database
    {
      ReceiverState(database.rows, shown)
    }

    constructor (database: NotificationTriggerTable)
      ensures this.database == database && shown == []
    {
      this.database := database;
      shown := [];
    }

    /** `setPushed` */
    method SetPushedAndStore(trigger: NotificationTrigger, now: int)
      modifies database
      ensures database.rows == UpdateRow(old(database.rows), SetPushed(trigger, now))
    {
      var pushed := trigger.(status := Pushed, pushedAt := Some(now), updatedAt := now);
      database.Update(pushed);
    }

    /** `onReceive`; `ok` is false where reading the trigger's JSON throws, and then nothing changes. */
    method OnReceive(hasContext: bool, hasIntent: bool, current: Option<NotificationTrigger>,
                     decode: string -> Option<QuestionnaireTrigger>, questionnaireTriggers: seq<seq<QuestionnaireTrigger>>,
                     now: int)
      returns (ok: bool)
      modifies this, database
      ensures var r := Receive(old(Model()), hasContext, hasIntent, current, decode, questionnaireTriggers, now);
        && (ok <==> r.Some?)
        && (ok ==> Model() == r.value)
        && (!ok ==> Model() == old(Model()))
    {
      if !hasIntent {
        return true;
      }
      if current.Some? && ShouldSendPush(current.value) {
        var trigger := current.value;
        if hasContext {
          var decoded := decode(trigger.triggerJson);
          if decoded.None? {
            return false;
          }
          shown := shown + [Shown(trigger, GetTimeout(decoded.value, questionnaireTriggers))];
        }
        SetPushedAndStore(trigger, now);
      }
      return true;
    }
  }
}
