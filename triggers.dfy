/**
 * The records that the notification scheduling shares: the stored notification trigger
 * (a planned, pushed, displayed or answered notification) and the questionnaire triggers a
 * study configures.
 */
module Triggers {
  import opened Wrappers

  /** WaveBreaking keeps the current wave going instead of starting the next one. */
  datatype Priority = Default | WaveBreaking

  datatype Modality = EventContingent | Push

  datatype Status = Planned | Pushed | Displayed | Answered

  /** Scheduled triggers are created at enrolment; RuleBased ones only by questionnaire rules. */
  datatype Source = Scheduled | RuleBased

  /** A row of the notification_trigger table; the UUID key is an integer here. */
  datatype NotificationTrigger = NotificationTrigger(
    uid: int,
    addedAt: int,
    name: string,
    status: Status,
    validFrom: int,
    priority: Priority,
    timeBucket: string,
    modality: Modality,
    source: Source,
    questionnaireId: int,
    triggerJson: string,
    plannedAt: Option<int>,
    pushedAt: Option<int>,
    displayedAt: Option<int>,
    answeredAt: Option<int>,
    updatedAt: int)

  /** The configuration of a floating-widget notification trigger. */
  datatype WidgetConfig = WidgetConfig(
    name: string,
    phaseName: string,
    timeBuckets: seq<string>,
    distanceMinutes: int,
    delayMinutes: int,
    randomToleranceMinutes: int,
    modality: Modality,
    priority: Priority,
    source: Source,
    notificationText: string,
    timeoutNotificationTriggerId: Option<int>)

  datatype EventModality = Open | PushEvent

  datatype Interval = Daily | Weekly | Monthly

  datatype Config =
    | Event(eventName: string, notificationText: string, eventModality: EventModality)
    | Periodic(interval: Interval, time: string)
    | RandomEma(distanceMinutes: int, randomToleranceMinutes: int, delayMinutes: int,
                timeBucket: string, emaPhaseName: string)
    | FloatingWidget(widget: WidgetConfig)
    | OneTime(studyDay: int, oneTimeAt: string, oneTimeToleranceMinutes: int, oneTimeText: string)
    | Unknown(originalType: string)

  /**
   * A questionnaire trigger of any kind. `json` stands for the trigger's serialised form, which
   * the notification records copy.
   */
  datatype QuestionnaireTrigger = QuestionnaireTrigger(
    id: int,
    questionnaireId: int,
    validDuration: int,
    enabled: bool,
    config: Config,
    json: string)

  /** The `type` name of a trigger: fixed per kind, the original name for an unknown kind. */
  function TypeName(t: QuestionnaireTrigger): (r: string)
    ensures t.config.Unknown? ==> r == t.config.originalType
  {
    match t.config
    case Event(_, _, _) => "event"
    case Periodic(_, _) => "periodic"
    case RandomEma(_, _, _, _, _) => "random_ema"
    case FloatingWidget(_) => "ema_floating_widget_notification"
    case OneTime(_, _, _, _) => "one_time"
    case Unknown(original) => original
  }
}
