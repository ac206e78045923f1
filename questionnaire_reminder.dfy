/**
 * Reminders for a pending questionnaire: when one is due, whether it is sent, and the alarm
 * records that let the app cancel it again.
 */
module QuestionnaireReminderReceiver {
  import opened Wrappers
  import opened Text
  import opened ScheduledAlarms
  import opened PendingQuestionnaires
  import Seqs

  /** The receiver name under which reminder alarms are stored. */
  const Receiver: string := "QuestionnaireReminderNotificationReceiver"

  /** A reminder at a time of day, or a number of minutes after the notification. */
  datatype Reminder =
    | TimeReminder(time: string, reminderText: string)
    | DurationReminder(afterMinutes: int, reminderText: string)

  /**
   * `getReminderNotificationTime`. `applyTime` stands for the helper that sets a time of day on
   * the notification's calendar day, which is not part of this model.
   */
  function ReminderNotificationTime(notificationTimestamp: int, reminder: Reminder,
                                    applyTime: (string, int) -> int): (t: int)
    ensures reminder.TimeReminder? ==> t == applyTime(reminder.time, notificationTimestamp)
    ensures reminder.DurationReminder? ==> t - notificationTimestamp == reminder.afterMinutes * 60000
  {
    match reminder
    case TimeReminder(time, _) => applyTime(time, notificationTimestamp)
    case DurationReminder(afterMinutes, _) => notificationTimestamp + afterMinutes * 60000
  }

  /** A duration reminder fires after the notification exactly when its delay is positive, and later for a longer delay. */
  lemma DurationReminderOrder(ts: int, a: int, b: int, text: string, applyTime: (string, int) -> int)
    ensures ReminderNotificationTime(ts, DurationReminder(a, text), applyTime) > ts <==> a > 0
    ensures a <= b ==> ReminderNotificationTime(ts, DurationReminder(a, text), applyTime)
                       <= ReminderNotificationTime(ts, DurationReminder(b, text), applyTime)
  {
  }

  /** The extras of the reminder's intent; absent extras are None. */
  datatype ReminderIntent = ReminderIntent(
    triggerId: Option<int>,
    reminder: Option<Reminder>,
    questionnaireName: Option<string>,
    pendingQuestionnaireId: Option<int>)

  datatype ReminderOutcome =
    | SendReminder(triggerId: int, pendingUid: int, text: string, questionnaireName: Option<string>)
    | AlreadyCompleted
    | PendingNotFound
    | NoNotificationHelper
    | Ignored

  /**
   * `onReceive`: with a reminder and a pending id, the pending questionnaire is looked up; the
   * reminder goes out when it is there and not completed. A missing trigger id reads as -1.
   * Without a context there is no notification helper, and the safe call sends nothing.
   */
  function OnReceive(hasContext: bool, intent: Option<ReminderIntent>, pending: map<int, PendingRecord>): ReminderOutcome
  {
    if intent.None? then Ignored
    else
      var i := intent.value;
      if i.reminder.None? || i.pendingQuestionnaireId.None? then Ignored
      else if i.pendingQuestionnaireId.value !in pending then PendingNotFound
      else
        var record := pending[i.pendingQuestionnaireId.value];
        if record.status != Completed then
          if !hasContext then NoNotificationHelper else
          SendReminder(i.triggerId.GetOrElse(-1), record.uid, i.reminder.value.reminderText, i.questionnaireName)
        else AlreadyCompleted
  }

  /**
   * A reminder is sent exactly when there is a context and the intent names a reminder and a
   * stored, uncompleted questionnaire.
   */
  lemma OnReceiveSendsIff(hasContext: bool, intent: Option<ReminderIntent>, pending: map<int, PendingRecord>)
    ensures OnReceive(hasContext, intent, pending).SendReminder? <==>
      && hasContext && intent.Some? && intent.value.reminder.Some? && intent.value.pendingQuestionnaireId.Some?
      && intent.value.pendingQuestionnaireId.value in pending
      && pending[intent.value.pendingQuestionnaireId.value].status != Completed
    ensures OnReceive(hasContext, intent, pending).SendReminder? ==>
      OnReceive(hasContext, intent, pending).text == intent.value.reminder.value.reminderText
  {
  }

  /** An alarm handed to the alarm manager. */
  datatype ReminderAlarm = ReminderAlarm(requestCode: int, at: int)

  /**
   * `scheduleReminderNotification`: stores a new alarm record for the pending questionnaire,
   * without looking for an earlier one, and sets the alarm at the reminder's time.
   */
  method ScheduleReminderNotification(table: AlarmTable, pendingUid: int, reminder: Reminder,
                                      notificationTimestamp: int, now: int, applyTime: (string, int) -> int)
    returns (alarm: ReminderAlarm)
    modifies table
    ensures var entry := ScheduledAlarms.CreateEntry(Receiver, IntToString(pendingUid),
                                     ReminderNotificationTime(notificationTimestamp, reminder, applyTime), now);
      && table.Model() == Inserted(old(table.Model()), entry)
      && alarm == ReminderAlarm(GenerateRequestCode(Receiver, IntToString(pendingUid)),
                                ReminderNotificationTime(notificationTimestamp, reminder, applyTime))
  {
    var timestamp := ReminderNotificationTime(notificationTimestamp, reminder, applyTime);
    var entry := ScheduledAlarms.CreateEntry(Receiver, IntToString(pendingUid), timestamp, now);
    var _ := table.Insert(entry);
    alarm := ReminderAlarm(entry.requestCode, entry.timestamp);
  }

  /** `clearReminderNotification`: the request code of the alarm to cancel, or None when no record exists. */
  method ClearReminderNotification(table: AlarmTable, pendingUid: int) returns (cancel: Option<int>)
    ensures var found := Lookup(table.Model(), Receiver, IntToString(pendingUid));
      && (found.None? ==> cancel.None?)
      && (found.Some? ==> cancel == Some(found.value.requestCode))
  {
    var found := table.GetByIdentifier(Receiver, IntToString(pendingUid));
    if found.Some? {
      cancel := Some(found.value.requestCode);
    } else {
      cancel := None;
    }
  }

  /**
   * Once a reminder was scheduled for a pending questionnaire, clearing finds a record and
   * cancels the very request code the alarm was set with, however many reminders were stored.
   */
  lemma ClearFindsScheduledReminder(t: Table, pendingUid: int, reminder: Reminder,
                                    notificationTimestamp: int, now: int, applyTime: (string, int) -> int)
    requires CodesGenerated(t)
    ensures var entry := ScheduledAlarms.CreateEntry(Receiver, IntToString(pendingUid),
                                     ReminderNotificationTime(notificationTimestamp, reminder, applyTime), now);
            var found := Lookup(Inserted(t, entry), Receiver, IntToString(pendingUid));
      && found.Some?
      && found.value.requestCode == GenerateRequestCode(Receiver, IntToString(pendingUid))
  {
    LookupAfterInsertHasCode(t, Receiver, IntToString(pendingUid),
                             ReminderNotificationTime(notificationTimestamp, reminder, applyTime), now);
  }
}
