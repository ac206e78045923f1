/**
 * The app's persisted settings: the settings record, how a stored file is read back with
 * defaults for missing fields, the `save*` updates, and the study day and phase derived from
 * the stored start time and phases.
 *
 * The clock is the `now` parameter of each update; the JSON text of the stored file is the
 * record of optional fields it decodes to.
 */
module DataStore {
  import opened Wrappers
  import Seqs
  import opened Clock
  import opened Study
  import opened OnboardingSteps

  /** `StudyState` */
  datatype StudyState = NotEnrolled | Running | Ended | Cancelled

  /** `AppSettings`; the nullable fields of the source are `Option`s. */
  datatype AppSettings = AppSettings(
    lastUpdate: int,
    token: Option<string>,
    participantId: Option<string>,
    studyId: int,
    questionnaires: Option<string>,
    inInteraction: bool,
    studyDays: int,
    remainingStudyDays: int,
    timestampStudyStarted: int,
    studyPaused: bool,
    studyPausedUntil: int,
    onboardingStep: OnboardingStep,
    study: Option<StudyDescription>,
    phases: Option<seq<ExperimentalGroupPhase>>,
    interactionWidgetTimeBucket: map<string, bool>,
    studyState: StudyState,
    sensitiveDataSalt: Option<string>)

  /**
   * `OptionalAppSettings`, what the stored JSON decodes to: every field may be missing. A
   * nullable field of `AppSettings` stored as null decodes as missing too.
   */
  datatype OptionalAppSettings = OptionalAppSettings(
    lastUpdate: Option<int>,
    token: Option<string>,
    participantId: Option<string>,
    studyId: Option<int>,
    questionnaires: Option<string>,
    inInteraction: Option<bool>,
    studyDays: Option<int>,
    remainingStudyDays: Option<int>,
    timestampStudyStarted: Option<int>,
    studyPaused: Option<bool>,
    studyPausedUntil: Option<int>,
    onboardingStep: Option<OnboardingStep>,
    study: Option<StudyDescription>,
    phases: Option<seq<ExperimentalGroupPhase>>,
    interactionWidgetTimeBucket: Option<map<string, bool>>,
    studyState: Option<StudyState>,
    sensitiveDataSalt: Option<string>)

  /** `DEFAULT_APP_SETTINGS` */
  const DefaultAppSettings: AppSettings := AppSettings(
    0, Some(""), Some(""), -1, Some(""), false, -1, -1, -1, false, -1, Welcome, None, None, map[],
    NotEnrolled, None)

  /** The fields of the settings record. */
  datatype Field =
    | LastUpdateField | TokenField | ParticipantIdField | StudyIdField | QuestionnairesField
    | InInteractionField | StudyDaysField | RemainingStudyDaysField | TimestampStudyStartedField
    | StudyPausedField | StudyPausedUntilField | OnboardingStepField | StudyField | PhasesField
    | InteractionWidgetTimeBucketField | StudyStateField | SensitiveDataSaltField

  /** `a` and `b` agree on every field outside `changed`. */
  predicate SameExcept(a: AppSettings, b: AppSettings, changed: set<Field>)
  {
    && (LastUpdateField !in changed ==> a.lastUpdate == b.lastUpdate)
    && (TokenField !in changed ==> a.token == b.token)
    && (ParticipantIdField !in changed ==> a.participantId == b.participantId)
    && (StudyIdField !in changed ==> a.studyId == b.studyId)
    && (QuestionnairesField !in changed ==> a.questionnaires == b.questionnaires)
    && (InInteractionField !in changed ==> a.inInteraction == b.inInteraction)
    && (StudyDaysField !in changed ==> a.studyDays == b.studyDays)
    && (RemainingStudyDaysField !in changed ==> a.remainingStudyDays == b.remainingStudyDays)
    && (TimestampStudyStartedField !in changed ==> a.timestampStudyStarted == b.timestampStudyStarted)
    && (StudyPausedField !in changed ==> a.studyPaused == b.studyPaused)
    && (StudyPausedUntilField !in changed ==> a.studyPausedUntil == b.studyPausedUntil)
    && (OnboardingStepField !in changed ==> a.onboardingStep == b.onboardingStep)
    && (StudyField !in changed ==> a.study == b.study)
    && (PhasesField !in changed ==> a.phases == b.phases)
    && (InteractionWidgetTimeBucketField !in changed ==> a.interactionWidgetTimeBucket == b.interactionWidgetTimeBucket)
    && (StudyStateField !in changed ==> a.studyState == b.studyState)
    && (SensitiveDataSaltField !in changed ==> a.sensitiveDataSalt == b.sensitiveDataSalt)
  }

  /**
   * `recoverFromOptionalOrUseDefault` as the source has it: each present field is kept and
   * each missing one takes its default, except the sensitive-data salt, which is not copied.
   */
  function RecoverAsWritten(o: OptionalAppSettings): (s: AppSettings)
    ensures s.sensitiveDataSalt == None
    ensures SameExcept(s, Recover(o), {SensitiveDataSaltField})
  {
    Recover(o).(sensitiveDataSalt := None)
  }

  /** `recoverFromOptionalOrUseDefault` with the salt copied like every other field. */
  function Recover(o: OptionalAppSettings): (s: AppSettings)
  {
    AppSettings(
      o.lastUpdate.GetOrElse(DefaultAppSettings.lastUpdate),
      if o.token.Some? then o.token else DefaultAppSettings.token,
      if o.participantId.Some? then o.participantId else DefaultAppSettings.participantId,
      o.studyId.GetOrElse(DefaultAppSettings.studyId),
      if o.questionnaires.Some? then o.questionnaires else DefaultAppSettings.questionnaires,
      o.inInteraction.GetOrElse(DefaultAppSettings.inInteraction),
      o.studyDays.GetOrElse(DefaultAppSettings.studyDays),
      o.remainingStudyDays.GetOrElse(DefaultAppSettings.remainingStudyDays),
      o.timestampStudyStarted.GetOrElse(DefaultAppSettings.timestampStudyStarted),
      o.studyPaused.GetOrElse(DefaultAppSettings.studyPaused),
      o.studyPausedUntil.GetOrElse(DefaultAppSettings.studyPausedUntil),
      o.onboardingStep.GetOrElse(DefaultAppSettings.onboardingStep),
      if o.study.Some? then o.study else DefaultAppSettings.study,
      if o.phases.Some? then o.phases else DefaultAppSettings.phases,
      o.interactionWidgetTimeBucket.GetOrElse(DefaultAppSettings.interactionWidgetTimeBucket),
      o.studyState.GetOrElse(DefaultAppSettings.studyState),
      o.sensitiveDataSalt)
  }

  /** What `writeTo` stores, as the record `readFrom` decodes it to: every field, nulls as missing. */
  function Written(s: AppSettings): OptionalAppSettings
  {
    OptionalAppSettings(
      Some(s.lastUpdate), s.token, s.participantId, Some(s.studyId), s.questionnaires,
      Some(s.inInteraction), Some(s.studyDays), Some(s.remainingStudyDays),
      Some(s.timestampStudyStarted), Some(s.studyPaused), Some(s.studyPausedUntil),
      Some(s.onboardingStep), s.study, s.phases, Some(s.interactionWidgetTimeBucket),
      Some(s.studyState), s.sensitiveDataSalt)
  }

  /** The empty record: a stored file with none of the fields. */
  const NothingStored: OptionalAppSettings := OptionalAppSettings(
    None, None, None, None, None, None, None, None, None, None, None, None, None, None, None, None, None)

  /** A settings record whose nullable fields with a non-null default are set, as every save keeps them. */
  predicate Normalized(s: AppSettings)
  {
    s.token.Some? && s.participantId.Some? && s.questionnaires.Some?
  }

  /** A file holding none of the fields reads back as the defaults. */
  lemma NothingStoredReadsAsDefault()
    ensures Recover(NothingStored) == DefaultAppSettings
    ensures RecoverAsWritten(NothingStored) == DefaultAppSettings
  {
  }

  /**
   * Reading back what was written loses the salt: a stored salt is never recovered, so the
   * salt saved at study start is gone after the settings are next read from the file.
   */
  lemma SaltLostOnRead(s: AppSettings)
    requires s.sensitiveDataSalt.Some?
    ensures RecoverAsWritten(Written(s)) != s
    ensures RecoverAsWritten(Written(s)).sensitiveDataSalt == None
  {
  }

  /** With the salt copied, reading back what was written gives the same settings. */
  lemma RecoverRoundTrip(s: AppSettings)
    requires Normalized(s)
    ensures Recover(Written(s)) == s
  {
  }

  /** A field present in the file is kept; a missing one takes its default. */
  lemma RecoverKeepsPresentFields(o: OptionalAppSettings)
    ensures var s := Recover(o);
            && (o.studyId.Some? ==> s.studyId == o.studyId.value)
            && (o.studyId.None? ==> s.studyId == -1)
            && (o.token.None? ==> s.token == Some(""))
            && (o.studyState.None? ==> s.studyState == NotEnrolled)
            && (o.onboardingStep.None? ==> s.onboardingStep == Welcome)
            && SameExcept(s, DefaultAppSettings, PresentFields(o))
  {
  }

  /** The fields a decoded file holds. */
  function PresentFields(o: OptionalAppSettings): set<Field>
  {
    (if o.lastUpdate.Some? then {LastUpdateField} else {})
    + (if o.token.Some? then {TokenField} else {})
    + (if o.participantId.Some? then {ParticipantIdField} else {})
    + (if o.studyId.Some? then {StudyIdField} else {})
    + (if o.questionnaires.Some? then {QuestionnairesField} else {})
    + (if o.inInteraction.Some? then {InInteractionField} else {})
    + (if o.studyDays.Some? then {StudyDaysField} else {})
    + (if o.remainingStudyDays.Some? then {RemainingStudyDaysField} else {})
    + (if o.timestampStudyStarted.Some? then {TimestampStudyStartedField} else {})
    + (if o.studyPaused.Some? then {StudyPausedField} else {})
    + (if o.studyPausedUntil.Some? then {StudyPausedUntilField} else {})
    + (if o.onboardingStep.Some? then {OnboardingStepField} else {})
    + (if o.study.Some? then {StudyField} else {})
    + (if o.phases.Some? then {PhasesField} else {})
    + (if o.interactionWidgetTimeBucket.Some? then {InteractionWidgetTimeBucketField} else {})
    + (if o.studyState.Some? then {StudyStateField} else {})
    + (if o.sensitiveDataSalt.Some? then {SensitiveDataSaltField} else {})
  }

  /** The `save*` operations of the manager, each with its argument. */
  datatype Update =
    | SaveToken(token: string)
    | SaveParticipantId(participantId: string)
    | SaveStudyId(studyId: int)
    | SaveEnrolment(token: string, participantId: string, studyId: int, phases: seq<ExperimentalGroupPhase>)
    | SaveQuestionnaires(json: string)
    | SetInInteraction(inInteraction: bool)
    | SaveStudyDays(studyDays: int)
    | SaveRemainingStudyDays(remainingStudyDays: int)
    | SaveTimestampStudyStarted(timestamp: int)
    | SaveStudyPaused(studyPaused: bool)
    | SaveStudyPausedUntil(studyPausedUntil: int)
    | SaveOnboardingStep(onboardingStep: OnboardingStep)
    | SaveStudy(study: StudyDescription)
    | SaveStudyPhases(phases: seq<ExperimentalGroupPhase>)
    | SetInteractionWidgetTimeBucket(buckets: map<string, bool>)
    | SaveStudyState(studyState: StudyState)
    | SaveSensitiveDataSalt(salt: string)

  /** The fields an update writes besides `lastUpdate`. */
  function Changes(u: Update): set<Field>
  {
    match u
    case SaveToken(_) => {TokenField}
    case SaveParticipantId(_) => {ParticipantIdField}
    case SaveStudyId(_) => {StudyIdField}
    case SaveEnrolment(_, _, _, _) => {TokenField, ParticipantIdField, StudyIdField, PhasesField}
    case SaveQuestionnaires(_) => {QuestionnairesField}
    case SetInInteraction(_) => {InInteractionField}
    case SaveStudyDays(_) => {StudyDaysField}
    case SaveRemainingStudyDays(_) => {RemainingStudyDaysField}
    case SaveTimestampStudyStarted(_) => {TimestampStudyStartedField}
    case SaveStudyPaused(_) => {StudyPausedField}
    case SaveStudyPausedUntil(_) => {StudyPausedUntilField}
    case SaveOnboardingStep(_) => {OnboardingStepField}
    case SaveStudy(_) => {StudyField}
    case SaveStudyPhases(_) => {PhasesField}
    case SetInteractionWidgetTimeBucket(_) => {InteractionWidgetTimeBucketField}
    case SaveStudyState(_) => {StudyStateField}
    case SaveSensitiveDataSalt(_) => {SensitiveDataSaltField}
  }

  /** A `save*`: a copy of the settings with its fields and `lastUpdate := now`. */
  function Apply(s: AppSettings, now: int, u: Update): (r: AppSettings)
  {
    var t := s.(lastUpdate := now);
    match u
    case SaveToken(token) => t.(token := Some(token))
    case SaveParticipantId(participantId) => t.(participantId := Some(participantId))
    case SaveStudyId(studyId) => t.(studyId := studyId)
    case SaveEnrolment(token, participantId, studyId, phases) =>
      t.(token := Some(token), participantId := Some(participantId), studyId := studyId, phases := Some(phases))
    case SaveQuestionnaires(json) => t.(questionnaires := Some(json))
    case SetInInteraction(inInteraction) => t.(inInteraction := inInteraction)
    case SaveStudyDays(studyDays) => t.(studyDays := studyDays)
    case SaveRemainingStudyDays(remainingStudyDays) => t.(remainingStudyDays := remainingStudyDays)
    case SaveTimestampStudyStarted(timestamp) => t.(timestampStudyStarted := timestamp)
    case SaveStudyPaused(studyPaused) => t.(studyPaused := studyPaused)
    case SaveStudyPausedUntil(studyPausedUntil) => t.(studyPausedUntil := studyPausedUntil)
    case SaveOnboardingStep(onboardingStep) => t.(onboardingStep := onboardingStep)
    case SaveStudy(study) => t.(study := Some(study))
    case SaveStudyPhases(phases) => t.(phases := Some(phases))
    case SetInteractionWidgetTimeBucket(buckets) => t.(interactionWidgetTimeBucket := buckets)
    case SaveStudyState(studyState) => t.(studyState := studyState)
    case SaveSensitiveDataSalt(salt) => t.(sensitiveDataSalt := Some(salt))
  }

  /** Every save changes its own fields and `lastUpdate` and nothing else. */
  lemma SaveChangesOnlyItsFields(s: AppSettings, now: int, u: Update)
    ensures var r := Apply(s, now, u);
            && SameExcept(s, r, Changes(u) + {LastUpdateField})
            && r.lastUpdate == now
  {
    match u
    case SaveToken(_) =>
    case SaveParticipantId(_) =>
    case SaveStudyId(_) =>
    case SaveEnrolment(_, _, _, _) =>
    case SaveQuestionnaires(_) =>
    case SetInInteraction(_) =>
    case SaveStudyDays(_) =>
    case SaveRemainingStudyDays(_) =>
    case SaveTimestampStudyStarted(_) =>
    case SaveStudyPaused(_) =>
    case SaveStudyPausedUntil(_) =>
    case SaveOnboardingStep(_) =>
    case SaveStudy(_) =>
    case SaveStudyPhases(_) =>
    case SetInteractionWidgetTimeBucket(_) =>
    case SaveStudyState(_) =>
    case SaveSensitiveDataSalt(_) =>
  }

  /** What a save stored reads back through the matching flow, and a normalized record stays normalized. */
  lemma SavedValuesReadBack(s: AppSettings, now: int, u: Update)
    ensures var r := Apply(s, now, u);
            && (Normalized(s) ==> Normalized(r))
            && (u.SaveToken? || u.SaveEnrolment? ==> TokenOf(r) == u.token)
            && (u.SaveStudyId? || u.SaveEnrolment? ==> r.studyId == u.studyId)
            && (u.SaveStudyPhases? || u.SaveEnrolment? ==> r.phases == Some(u.phases))
            && (u.SaveSensitiveDataSalt? ==> SaltOf(r) == u.salt)
            && (u.SaveOnboardingStep? ==> r.onboardingStep == u.onboardingStep)
            && (u.SaveStudyState? ==> r.studyState == u.studyState)
  {
  }

  /** `tokenFlow`: the token, "" when null. */
  function TokenOf(s: AppSettings): string
  {
    s.token.GetOrElse("")
  }

  /** `getSensitiveDataSaltSync`: the salt, "" when null. */
  function SaltOf(s: AppSettings): string
  {
    s.sensitiveDataSalt.GetOrElse("")
  }

  /** The local date of an instant, as a day count since the epoch. */
  function EpochDay(t: int): int
  {
    DayStart(t) / MsPerDay
  }

  /** `currentStudyDay`: the day the study started is day 1, the next day day 2, and so on. */
  function CurrentStudyDay(timestampStudyStarted: int, now: int): (day: int)
  {
    EpochDay(now) - EpochDay(timestampStudyStarted) + 1
  }

  /** k whole days after any instant of the start day is study day k + 1. */
  lemma StudyDayCounts(started: int, now: int, k: int)
    requires DayStart(now) == DayStart(started) + k * MsPerDay
    ensures CurrentStudyDay(started, now) == k + 1
  {
    var d := DayStart(started) / MsPerDay;
    assert DayStart(started) == d * MsPerDay;
    assert DayStart(now) == (d + k) * MsPerDay;
  }

  /** Any time on the start day is day 1. */
  lemma StartDayIsDayOne(started: int, now: int)
    requires DayStart(now) == DayStart(started)
    ensures CurrentStudyDay(started, now) == 1
  {
    StudyDayCounts(started, now, 0);
  }

  /** A phase covers a day from `fromDay` for `durationDays` days. */
  predicate Covers(phase: ExperimentalGroupPhase, day: int)
  {
    phase.fromDay <= day < phase.fromDay + phase.durationDays
  }

  function CoversDay(day: int): ExperimentalGroupPhase -> bool
  {
    (phase: ExperimentalGroupPhase) => Covers(phase, day)
  }

  /**
   * `getCurrentStudyPhase` for a study day: the first stored phase that covers it; none when
   * no phases are stored or none covers it.
   */
  function PhaseOnDay(phases: Option<seq<ExperimentalGroupPhase>>, day: int): (r: Option<ExperimentalGroupPhase>)
    ensures phases.None? ==> r.None?
    ensures r.Some? ==> exists i :: 0 <= i < |phases.value| && phases.value[i] == r.value && Covers(r.value, day)
                                 && forall j :: 0 <= j < i ==> !Covers(phases.value[j], day)
    ensures phases.Some? && r.None? ==> forall i :: 0 <= i < |phases.value| ==> !Covers(phases.value[i], day)
  {
    if phases.None? then None else Seqs.Find(phases.value, CoversDay(day))
  }

  /** `getCurrentStudyPhase` on the stored settings at time `now`. */
  function CurrentStudyPhase(s: AppSettings, now: int): Option<ExperimentalGroupPhase>
  {
    PhaseOnDay(s.phases, CurrentStudyDay(s.timestampStudyStarted, now))
  }

  /** `getCurrentInteractionWidgetDisplayStrategySync`: the current phase's strategy, or null. */
  function CurrentDisplayStrategy(s: AppSettings, now: int): (r: Option<InteractionWidgetDisplayStrategy>)
    ensures r.Some? <==> CurrentStudyPhase(s, now).Some?
    ensures r.Some? ==> r.value == CurrentStudyPhase(s, now).value.interactionWidgetStrategy
  {
    var phase := CurrentStudyPhase(s, now);
    if phase.Some? then Some(phase.value.interactionWidgetStrategy) else None
  }

  /** Phases that follow each other without a gap or overlap give each day of their span exactly the phase holding it. */
  lemma ConsecutivePhasesPickTheirDay(phases: seq<ExperimentalGroupPhase>, i: int, day: int)
    requires 0 <= i < |phases|
    requires forall j :: 0 <= j < |phases| ==> phases[j].durationDays > 0
    requires forall j :: 0 < j < |phases| ==> phases[j].fromDay == phases[j - 1].fromDay + phases[j - 1].durationDays
    requires Covers(phases[i], day)
    ensures PhaseOnDay(Some(phases), day) == Some(phases[i])
  {
    var r := PhaseOnDay(Some(phases), day);
    assert r.Some?;
    var k :| 0 <= k < |phases| && phases[k] == r.value && Covers(r.value, day)
             && forall j :: 0 <= j < k ==> !Covers(phases[j], day);
    if k < i {
      PhasesAscend(phases, k, i);
    }
  }

  /** In consecutive phases, a later phase starts no earlier than an earlier one ends. */
  lemma {:induction false} PhasesAscend(phases: seq<ExperimentalGroupPhase>, a: int, b: int)
    requires 0 <= a < b < |phases|
    requires forall j :: 0 <= j < |phases| ==> phases[j].durationDays > 0
    requires forall j :: 0 < j < |phases| ==> phases[j].fromDay == phases[j - 1].fromDay + phases[j - 1].durationDays
    ensures phases[a].fromDay + phases[a].durationDays <= phases[b].fromDay
    decreases b - a
  {
    if a + 1 < b {
      PhasesAscend(phases, a + 1, b);
    }
  }

  /** The settings store behind `DataStoreManager`. */
  class DataStoreManager {
    var settings: AppSettings

    /** A store whose file is read at creation, with the salt recovered like every other field. */
    constructor (stored: OptionalAppSettings)
      ensures settings == Recover(stored)
    {
      settings := Recover(stored);
    }

    /** `eraseAllData` */
    method EraseAllData()
      modifies this
      ensures settings == DefaultAppSettings
    {
      settings := DefaultAppSettings;
    }

    /** Each `save*` method: `updateData` with the copy the update makes. */
    method Save(u: Update, now: int)
      modifies this
      ensures settings == Apply(old(settings), now, u)
    {
      settings := Apply(settings, now, u);
    }

    /** `tokenFlow.first()` */
    method Token() returns (token: string)
      ensures token == TokenOf(settings)
    {
      token := if settings.token.Some? then settings.token.value else "";
    }

    /** `currentStudyDay` */
    method StudyDay(now: int) returns (day: int)
      ensures day == CurrentStudyDay(settings.timestampStudyStarted, now)
    {
      day := EpochDay(now) - EpochDay(settings.timestampStudyStarted) + 1;
    }

    /** `getCurrentStudyPhase` */
    method GetCurrentStudyPhase(now: int) returns (phase: Option<ExperimentalGroupPhase>)
      ensures phase == CurrentStudyPhase(settings, now)
    {
      var day := StudyDay(now);
      phase := PhaseOnDay(settings.phases, day);
    }
  }
}
