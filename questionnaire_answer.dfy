/**
 * The request that uploads a participant's answers to a questionnaire: the pending
 * questionnaire's progress, the notification trigger that led to it, and the answers array.
 *
 * JSON parsing is abstract: the answers text arrives as what it parses to, and the trigger
 * id is what the trigger's JSON decodes to.
 */
module QuestionnaireAnswers {
  import opened Wrappers
  import opened Text
  import opened Triggers
  import opened PendingQuestionnaires

  /** What `Json.parseToJsonElement(answers)` gives: an array of elements, another JSON value, or a parse error. */
  datatype ParsedAnswers = AnswerArray(elements: seq<string>) | NotAnArray | Malformed

  /** `SerializableNotificationTrigger`: the trigger with its enums by name and its UUID as text. */
  datatype SerializableTrigger = SerializableTrigger(
    uid: string,
    addedAt: int,
    name: string,
    status: string,
    validFrom: int,
    priority: string,
    timeBucket: string,
    modality: string,
    source: string,
    questionnaireId: int,
    triggerId: int,
    plannedAt: Option<int>,
    pushedAt: Option<int>,
    displayedAt: Option<int>,
    answeredAt: Option<int>,
    updatedAt: int)

  /** `QuestionnaireAnswerRequest` */
  datatype AnswerRequest = AnswerRequest(
    pendingQuestionnaireId: string,
    createdTimestamp: int,
    lastUpdatedTimestamp: int,
    finishedTimestamp: int,
    lastOpenedPage: int,
    status: PendingStatus,
    notificationTrigger: Option<SerializableTrigger>,
    answers: seq<string>)

  /** Why building the request throws. */
  datatype RequestError = AnswersNotAnArray | AnswersMalformed | TriggerJsonMalformed

  /** Kotlin's `Enum.name` of each trigger enum. */
  function StatusName(s: Status): string
  {
    match s
    case Planned => "Planned"
    case Pushed => "Pushed"
    case Displayed => "Displayed"
    case Answered => "Answered"
  }

  function PriorityName(p: Priority): string
  {
    match p
    case Default => "Default"
    case WaveBreaking => "WaveBreaking"
  }

  function ModalityName(m: Modality): string
  {
    match m
    case EventContingent => "EventContingent"
    case Push => "Push"
  }

  function SourceName(s: Source): string
  {
    match s
    case Scheduled => "Scheduled"
    case RuleBased => "RuleBased"
  }

  /** Kotlin's `valueOf` on the names: the receiver reads the names back. */
  function StatusFromName(name: string): Option<Status>
  {
    if name == "Planned" then Some(Planned)
    else if name == "Pushed" then Some(Pushed)
    else if name == "Displayed" then Some(Displayed)
    else if name == "Answered" then Some(Answered)
    else None
  }

  function PriorityFromName(name: string): Option<Priority>
  {
    if name == "Default" then Some(Default) else if name == "WaveBreaking" then Some(WaveBreaking) else None
  }

  function ModalityFromName(name: string): Option<Modality>
  {
    if name == "EventContingent" then Some(EventContingent) else if name == "Push" then Some(Push) else None
  }

  function SourceFromName(name: string): Option<Source>
  {
    if name == "Scheduled" then Some(Scheduled) else if name == "RuleBased" then Some(RuleBased) else None
  }

  /** Every enum value is serialised by a name that reads back as the same value. */
  lemma EnumNamesRoundTrip(s: Status, p: Priority, m: Modality, src: Source)
    ensures StatusFromName(StatusName(s)) == Some(s)
    ensures PriorityFromName(PriorityName(p)) == Some(p)
    ensures ModalityFromName(ModalityName(m)) == Some(m)
    ensures SourceFromName(SourceName(src)) == Some(src)
  {
  }

  /** The UUID's text; UUIDs are integers in this model. */
  function UuidText(uid: int): string
  {
    IntToString(uid)
  }

  /** The trigger as it is sent, given the id its JSON decodes to. */
  function Serialize(t: NotificationTrigger, triggerId: int): (r: SerializableTrigger)
    ensures StatusFromName(r.status) == Some(t.status) && PriorityFromName(r.priority) == Some(t.priority)
    ensures ModalityFromName(r.modality) == Some(t.modality) && SourceFromName(r.source) == Some(t.source)
    ensures r.uid == UuidText(t.uid) && r.triggerId == triggerId
    ensures r.addedAt == t.addedAt && r.validFrom == t.validFrom && r.updatedAt == t.updatedAt
    ensures r.name == t.name && r.timeBucket == t.timeBucket && r.questionnaireId == t.questionnaireId
    ensures r.plannedAt == t.plannedAt && r.pushedAt == t.pushedAt
    ensures r.displayedAt == t.displayedAt && r.answeredAt == t.answeredAt
  {
    EnumNamesRoundTrip(t.status, t.priority, t.modality, t.source);
    SerializableTrigger(
      UuidText(t.uid), t.addedAt, t.name, StatusName(t.status), t.validFrom, PriorityName(t.priority),
      t.timeBucket, ModalityName(t.modality), SourceName(t.source), t.questionnaireId, triggerId,
      t.plannedAt, t.pushedAt, t.displayedAt, t.answeredAt, t.updatedAt)
  }

  /**
   * `makeAnswerRequest`: fails when the answers are not a JSON array or the trigger's JSON
   * does not decode; otherwise the request carries the pending questionnaire's progress with
   * -1 for a missing finish time or page.
   */
  function MakeAnswerRequest(answers: ParsedAnswers, pending: PendingRecord,
                             trigger: Option<NotificationTrigger>, decodeTriggerId: string -> Option<int>)
    : (r: Result<AnswerRequest, RequestError>)
    ensures r.Success? <==> answers.AnswerArray? && (trigger.Some? ==> decodeTriggerId(trigger.value.triggerJson).Some?)
    ensures r.Success? ==>
      && r.value.pendingQuestionnaireId == UuidText(pending.uid)
      && r.value.createdTimestamp == pending.addedAt
      && r.value.lastUpdatedTimestamp == pending.updatedAt
      && r.value.finishedTimestamp == (if pending.finishedAt.Some? then pending.finishedAt.value else -1)
      && r.value.lastOpenedPage == (if pending.openedPage.Some? then pending.openedPage.value else -1)
      && r.value.status == pending.status
      && (r.value.notificationTrigger.None? <==> trigger.None?)
      && (trigger.Some? ==> r.value.notificationTrigger.value.triggerId == decodeTriggerId(trigger.value.triggerJson).value)
      && r.value.answers == answers.elements
  {
    if answers.Malformed? then Failure(AnswersMalformed)
    else if answers.NotAnArray? then Failure(AnswersNotAnArray)
    else if trigger.Some? && decodeTriggerId(trigger.value.triggerJson).None? then Failure(TriggerJsonMalformed)
    else
      var serialized := if trigger.Some? then Some(Serialize(trigger.value, decodeTriggerId(trigger.value.triggerJson).value)) else None;
      Success(AnswerRequest(
        UuidText(pending.uid), pending.addedAt, pending.updatedAt, pending.finishedAt.GetOrElse(-1),
        pending.openedPage.GetOrElse(-1), pending.status, serialized, answers.elements))
  }

  /** A finished questionnaire reports its finish time, which is never the -1 of an unfinished one when times are not negative. */
  lemma FinishedTimestampMarksCompletion(answers: ParsedAnswers, pending: PendingRecord,
                                          trigger: Option<NotificationTrigger>, decodeTriggerId: string -> Option<int>)
    requires MakeAnswerRequest(answers, pending, trigger, decodeTriggerId).Success?
    requires pending.finishedAt.Some? ==> pending.finishedAt.value >= 0
    ensures (MakeAnswerRequest(answers, pending, trigger, decodeTriggerId).value.finishedTimestamp == -1)
            <==> pending.finishedAt.None?
  {
  }
}
