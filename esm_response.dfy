/**
 * The backend's answer upload, `POST /v1/study/:studyId/questionnaire/:questionnaireId/answer`:
 * it checks the path against the questionnaire, skips an answer already stored as completed,
 * stores the answer's notification trigger (a newer copy replaces an older one, an older copy is
 * skipped) and then stores the answer as a new row.
 *
 * The database tables are the fields of `AnswerDatabase`; a query that reads one row reads the first
 * matching row in table order. The path and the body are given as what their schemas accept
 * (None where validation fails). The questionnaires are those of the configuration repository.
 */
module EsmResponse {
  import opened Wrappers

  datatype AnswerStatus = Notified | Pending | Completed
  datatype UpdateStatus = Created | Updated | Skipped
  datatype EntityUpdate<T> = EntityUpdate(status: UpdateStatus, id: T)

  /** An uploaded notification trigger: its local uid, where it came from, and when it last changed. */
  datatype TriggerBody = TriggerBody(uid: string, triggerId: int, questionnaireId: int, name: string,
                                     validFrom: int, updatedAt: int)

  datatype AnswerItem = AnswerItem(elementId: int, elementName: string, value: string)

  /** An uploaded answer, as its schema accepts it. */
  datatype AnswerBody = AnswerBody(pendingQuestionnaireId: string, status: AnswerStatus, lastOpenedPage: int,
                                   createdTimestamp: int, lastUpdatedTimestamp: int, finishedTimestamp: Option<int>,
                                   notificationTrigger: TriggerBody, answers: seq<AnswerItem>)

  datatype QuestionnairePath = QuestionnairePath(studyId: int, questionnaireId: int)
  datatype Questionnaire = Questionnaire(id: int, studyId: int)

  /** A row of `esm_notification_trigger`: the enrolment it belongs to and the trigger. */
  datatype TriggerRow = TriggerRow(enrolmentId: int, trigger: TriggerBody)

  /** A row of `esm_answers`. */
  datatype AnswerRow = AnswerRow(id: int, questionnaireId: int, enrolmentId: int, answers: seq<AnswerItem>,
                                 pendingQuestionnaireId: string, status: AnswerStatus, lastOpenedPage: int,
                                 createdTimestamp: int, lastUpdatedTimestamp: int, finishedTimestamp: Option<int>,
                                 notificationTriggerId: Option<string>)

  /** Both tables and the next serial id of an answer. */
  datatype Store = Store(answers: seq<AnswerRow>, triggers: seq<TriggerRow>, nextAnswerId: int)

  datatype Response = Json(update: EntityUpdate<int>) | Error(code: int)

  /** `fetchOrFailQuestionnaire`: the questionnaire of the path, or the status code it answers with. */
  function FetchOrFailQuestionnaire(path: Option<QuestionnairePath>, questionnaires: map<int, Questionnaire>)
    : (r: Result<Questionnaire, int>)
    ensures r == Failure(400) <==> path.None?
    ensures r == Failure(404) <==> path.Some? && path.value.questionnaireId !in questionnaires
    ensures r == Failure(403) <==>
      path.Some? && path.value.questionnaireId in questionnaires
      && questionnaires[path.value.questionnaireId].studyId != path.value.studyId
    ensures r.Success? ==>
      path.Some? && path.value.questionnaireId in questionnaires
      && r.value == questionnaires[path.value.questionnaireId] && r.value.studyId == path.value.studyId
  {
    if path.None? then Failure(400)
    else if path.value.questionnaireId !in questionnaires then Failure(404)
    else
      var questionnaire := questionnaires[path.value.questionnaireId];
      if questionnaire.studyId != path.value.studyId then Failure(403)
      else Success(questionnaire)
  }

  /** `getESMAnswerForPendingQuestionnaireId`: the first answer row for the pending questionnaire. */
  function FindAnswer(answers: seq<AnswerRow>, pendingId: string): (r: Option<AnswerRow>)
    ensures r.Some? ==> r.value in answers && r.value.pendingQuestionnaireId == pendingId
    ensures r.None? <==> forall i :: 0 <= i < |answers| ==> answers[i].pendingQuestionnaireId != pendingId
  {
    if |answers| == 0 then None
    else if answers[0].pendingQuestionnaireId == pendingId then Some(answers[0])
    else
      assert forall i :: 1 <= i < |answers| ==> answers[i] == answers[1..][i - 1];
      FindAnswer(answers[1..], pendingId)
  }

  predicate Matches(row: TriggerRow, enrolmentId: int, uid: string)
  {
    row.enrolmentId == enrolmentId && row.trigger.uid == uid
  }

  /** `getNotificationTriggerByLocalId`: the first trigger row of the enrolment with the uid. */
  function FindTrigger(rows: seq<TriggerRow>, enrolmentId: int, uid: string): (r: Option<TriggerRow>)
    ensures r.Some? ==> r.value in rows && Matches(r.value, enrolmentId, uid)
    ensures r.None? <==> forall i :: 0 <= i < |rows| ==> !Matches(rows[i], enrolmentId, uid)
  {
    if |rows| == 0 then None
    else if Matches(rows[0], enrolmentId, uid) then Some(rows[0])
    else
      assert forall i :: 1 <= i < |rows| ==> rows[i] == rows[1..][i - 1];
      FindTrigger(rows[1..], enrolmentId, uid)
  }

  /** The table after `updateNotificationTrigger`: every row of the enrolment with the uid holds the trigger. */
  function UpdateRows(rows: seq<TriggerRow>, enrolmentId: int, trigger: TriggerBody): (r: seq<TriggerRow>)
    ensures |r| == |rows|
    ensures forall i :: 0 <= i < |rows| ==>
      r[i] == if Matches(rows[i], enrolmentId, trigger.uid) then TriggerRow(enrolmentId, trigger) else rows[i]
  {
    seq(|rows|, i requires 0 <= i < |rows| =>
      if Matches(rows[i], enrolmentId, trigger.uid) then TriggerRow(enrolmentId, trigger) else rows[i])
  }

  /** What `updateNotificationTrigger` returns: the updated trigger, or null when no row matched. */
  function UpdatedTrigger(rows: seq<TriggerRow>, enrolmentId: int, trigger: TriggerBody): Option<TriggerBody>
  {
    if FindTrigger(rows, enrolmentId, trigger.uid).Some? then Some(trigger) else None
  }

  const TriggerFailure: string := "Failed to create or update notification trigger"

  /**
   * `saveOrUpdateNotificationTrigger`: a stored copy at least as recent is kept and reported as
   * skipped; an older stored copy is replaced; a trigger not stored yet is added. The update that
   * returns no row throws.
   */
  function SaveTrigger(s: Store, enrolmentId: int, trigger: TriggerBody): Result<(Store, EntityUpdate<string>), string>
  {
    var existing := FindTrigger(s.triggers, enrolmentId, trigger.uid);
    if existing.Some? && existing.value.trigger.updatedAt >= trigger.updatedAt then
      Success((s, EntityUpdate(Skipped, existing.value.trigger.uid)))
    else if existing.Some? then
      var updated := UpdatedTrigger(s.triggers, enrolmentId, trigger);
      if updated.Some? then
        Success((s.(triggers := UpdateRows(s.triggers, enrolmentId, trigger)), EntityUpdate(Updated, updated.value.uid)))
      else Failure(TriggerFailure)
    else
      Success((s.(triggers := s.triggers + [TriggerRow(enrolmentId, trigger)]), EntityUpdate(Created, trigger.uid)))
  }

  /** The answer row `createESMAnswer` adds. */
  function NewAnswerRow(id: int, questionnaire: Questionnaire, enrolmentId: int, answer: AnswerBody,
                        notificationTriggerId: string): AnswerRow
  {
    AnswerRow(id, questionnaire.id, enrolmentId, answer.answers, answer.pendingQuestionnaireId, answer.status,
              answer.lastOpenedPage, answer.createdTimestamp, answer.lastUpdatedTimestamp, answer.finishedTimestamp,
              Some(notificationTriggerId))
  }

  /**
   * `saveOrUpdateAnswer`: an answer already stored as completed is skipped, with its id; otherwise
   * the trigger is stored and the answer is added as a new row, even when an unfinished answer for
   * the same pending questionnaire is stored already.
   */
  function SaveAnswer(s: Store, questionnaire: Questionnaire, enrolmentId: int, answer: AnswerBody)
    : (r: Result<(Store, EntityUpdate<int>), string>)
    ensures var existing := FindAnswer(s.answers, answer.pendingQuestionnaireId);
      existing.Some? && existing.value.status == Completed ==>
        r == Success((s, EntityUpdate(Skipped, existing.value.id)))
    ensures r.Success? && r.value.1.status != Skipped ==>
      && r.value.1 == EntityUpdate(Created, s.nextAnswerId)
      && r.value.0.answers == s.answers + [NewAnswerRow(s.nextAnswerId, questionnaire, enrolmentId, answer, answer.notificationTrigger.uid)]
  {
    var existing := FindAnswer(s.answers, answer.pendingQuestionnaireId);
    if existing.Some? && existing.value.status == Completed then
      Success((s, EntityUpdate(Skipped, existing.value.id)))
    else
      match SaveTrigger(s, enrolmentId, answer.notificationTrigger)
      case Failure(e) => Failure(e)
      case Success(saved) =>
        var s1 := saved.0;
        var row := NewAnswerRow(s1.nextAnswerId, questionnaire, enrolmentId, answer, saved.1.id);
        Success((s1.(answers := s1.answers + [row], nextAnswerId := s1.nextAnswerId + 1), EntityUpdate(Created, row.id)))
  }

  /**
   * The route: the path and questionnaire are checked first, then the body (400); the result of
   * storing the answer is the JSON reply. A thrown error leaves the request without a reply.
   */
  function PostAnswer(s: Store, path: Option<QuestionnairePath>, questionnaires: map<int, Questionnaire>,
                      body: Option<AnswerBody>, enrolmentId: int): Result<(Store, Response), string>
  {
    match FetchOrFailQuestionnaire(path, questionnaires)
    case Failure(code) => Success((s, Error(code)))
    case Success(questionnaire) =>
      if body.None? then Success((s, Error(400)))
      else match SaveAnswer(s, questionnaire, enrolmentId, body.value)
        case Failure(e) => Failure(e)
        case Success(saved) => Success((saved.0, Json(saved.1)))
  }

  /** The stored trigger after an update: the first matching row is now the new trigger. */
  lemma {:induction false} FindAfterUpdate(rows: seq<TriggerRow>, enrolmentId: int, trigger: TriggerBody,
                                           otherEnrolment: int, otherUid: string)
    ensures FindTrigger(UpdateRows(rows, enrolmentId, trigger), otherEnrolment, otherUid) ==
      if (otherEnrolment, otherUid) == (enrolmentId, trigger.uid) then
        (if FindTrigger(rows, enrolmentId, trigger.uid).Some? then Some(TriggerRow(enrolmentId, trigger)) else None)
      else FindTrigger(rows, otherEnrolment, otherUid)
  {
    if |rows| > 0 {
      FindAfterUpdate(rows[1..], enrolmentId, trigger, otherEnrolment, otherUid);
      assert UpdateRows(rows, enrolmentId, trigger)[1..] == UpdateRows(rows[1..], enrolmentId, trigger);
    }
  }

  /** The stored trigger after an insert: an earlier row still wins, else the new row. */
  lemma {:induction false} FindAfterAppend(rows: seq<TriggerRow>, row: TriggerRow, enrolmentId: int, uid: string)
    ensures FindTrigger(rows + [row], enrolmentId, uid) ==
      if FindTrigger(rows, enrolmentId, uid).Some? then FindTrigger(rows, enrolmentId, uid)
      else if Matches(row, enrolmentId, uid) then Some(row) else None
  {
    if |rows| > 0 {
      FindAfterAppend(rows[1..], row, enrolmentId, uid);
      assert (rows + [row])[1..] == rows[1..] + [row];
    }
  }

  /** The stored answer after an insert: an earlier row still wins, else the new row. */
  lemma {:induction false} FindAnswerAfterAppend(answers: seq<AnswerRow>, row: AnswerRow, pendingId: string)
    ensures FindAnswer(answers + [row], pendingId) ==
      if FindAnswer(answers, pendingId).Some? then FindAnswer(answers, pendingId)
      else if row.pendingQuestionnaireId == pendingId then Some(row) else None
  {
    if |answers| > 0 {
      FindAnswerAfterAppend(answers[1..], row, pendingId);
      assert (answers + [row])[1..] == answers[1..] + [row];
    }
  }

  /**
   * Last writer wins: saving a trigger never fails on this store, and afterwards the stored copy
   * is the more recent of the old copy and the upload (an upload no newer than the stored copy
   * changes nothing). Triggers of other enrolments or uids are untouched, and the answers too.
   */
  lemma LastWriterWins(s: Store, enrolmentId: int, trigger: TriggerBody, otherEnrolment: int, otherUid: string)
    ensures SaveTrigger(s, enrolmentId, trigger).Success?
    ensures var (s1, update) := SaveTrigger(s, enrolmentId, trigger).value;
      var before := FindTrigger(s.triggers, enrolmentId, trigger.uid);
      && update.id == trigger.uid
      && s1.answers == s.answers && s1.nextAnswerId == s.nextAnswerId
      && (before.Some? && before.value.trigger.updatedAt >= trigger.updatedAt ==> update.status == Skipped && s1 == s)
      && (before.Some? && before.value.trigger.updatedAt < trigger.updatedAt ==> update.status == Updated)
      && (before.None? ==> update.status == Created)
      && FindTrigger(s1.triggers, enrolmentId, trigger.uid).Some?
      && FindTrigger(s1.triggers, enrolmentId, trigger.uid).value.trigger ==
           (if before.Some? && before.value.trigger.updatedAt >= trigger.updatedAt then before.value.trigger else trigger)
      && ((otherEnrolment, otherUid) != (enrolmentId, trigger.uid) ==>
            FindTrigger(s1.triggers, otherEnrolment, otherUid) == FindTrigger(s.triggers, otherEnrolment, otherUid))
  {
    var before := FindTrigger(s.triggers, enrolmentId, trigger.uid);
    if before.Some? && before.value.trigger.updatedAt < trigger.updatedAt {
      FindAfterUpdate(s.triggers, enrolmentId, trigger, enrolmentId, trigger.uid);
      FindAfterUpdate(s.triggers, enrolmentId, trigger, otherEnrolment, otherUid);
    } else if before.None? {
      FindAfterAppend(s.triggers, TriggerRow(enrolmentId, trigger), enrolmentId, trigger.uid);
      FindAfterAppend(s.triggers, TriggerRow(enrolmentId, trigger), otherEnrolment, otherUid);
    }
  }

  /** Uploading the same trigger twice: the second upload is skipped and changes nothing. */
  lemma TriggerUploadIdempotent(s: Store, enrolmentId: int, trigger: TriggerBody)
    ensures var s1 := SaveTrigger(s, enrolmentId, trigger).value.0;
      SaveTrigger(s1, enrolmentId, trigger) == Success((s1, EntityUpdate(Skipped, trigger.uid)))
  {
    LastWriterWins(s, enrolmentId, trigger, enrolmentId, trigger.uid);
  }

  /**
   * A completed answer is stored once: after a completed upload for a pending questionnaire that
   * had no answer yet, the next upload for it is skipped, with the stored row's id, and changes
   * nothing.
   */
  lemma CompletedAnswerStoredOnce(s: Store, questionnaire: Questionnaire, enrolmentId: int, answer: AnswerBody,
                                  retry: AnswerBody, questionnaire2: Questionnaire)
    requires answer.status == Completed
    requires FindAnswer(s.answers, answer.pendingQuestionnaireId).None?
    requires retry.pendingQuestionnaireId == answer.pendingQuestionnaireId
    ensures SaveAnswer(s, questionnaire, enrolmentId, answer).Success?
    ensures var (s1, update) := SaveAnswer(s, questionnaire, enrolmentId, answer).value;
      && update == EntityUpdate(Created, s.nextAnswerId)
      && SaveAnswer(s1, questionnaire2, enrolmentId, retry) == Success((s1, EntityUpdate(Skipped, s.nextAnswerId)))
  {
    LastWriterWins(s, enrolmentId, answer.notificationTrigger, enrolmentId, answer.notificationTrigger.uid);
    var (s0, _) := SaveTrigger(s, enrolmentId, answer.notificationTrigger).value;
    var row := NewAnswerRow(s.nextAnswerId, questionnaire, enrolmentId, answer, answer.notificationTrigger.uid);
    FindAnswerAfterAppend(s.answers, row, answer.pendingQuestionnaireId);
  }

  /**
   * An answer that is not stored as completed is never updated: each upload adds one more row for
   * the pending questionnaire, and the first stored row is still the one the next upload finds.
   */
  lemma UnfinishedAnswerIsNotUpdated(s: Store, questionnaire: Questionnaire, enrolmentId: int, answer: AnswerBody)
    requires FindAnswer(s.answers, answer.pendingQuestionnaireId).Some?
    requires FindAnswer(s.answers, answer.pendingQuestionnaireId).value.status != Completed
    ensures SaveAnswer(s, questionnaire, enrolmentId, answer).Success?
    ensures var s1 := SaveAnswer(s, questionnaire, enrolmentId, answer).value.0;
      && |s1.answers| == |s.answers| + 1
      && s1.answers[..|s.answers|] == s.answers
      && FindAnswer(s1.answers, answer.pendingQuestionnaireId) == FindAnswer(s.answers, answer.pendingQuestionnaireId)
  {
    LastWriterWins(s, enrolmentId, answer.notificationTrigger, enrolmentId, answer.notificationTrigger.uid);
    var row := NewAnswerRow(s.nextAnswerId, questionnaire, enrolmentId, answer, answer.notificationTrigger.uid);
    FindAnswerAfterAppend(s.answers, row, answer.pendingQuestionnaireId);
  }

  /** The answer ids are distinct and below the next serial id. */
  predicate ValidStore(s: Store)
  {
    && (forall i :: 0 <= i < |s.answers| ==> s.answers[i].id < s.nextAnswerId)
    && (forall i, j :: 0 <= i < j < |s.answers| ==> s.answers[i].id != s.answers[j].id)
  }

  /**
   * Every request keeps the ids distinct; a request refused with a status code writes nothing, and
   * so does an invalid body, which is checked only after the questionnaire.
   */
  lemma PostAnswerKeepsStore(s: Store, path: Option<QuestionnairePath>, questionnaires: map<int, Questionnaire>,
                             body: Option<AnswerBody>, enrolmentId: int)
    requires ValidStore(s)
    ensures var r := PostAnswer(s, path, questionnaires, body, enrolmentId);
      && r.Success?
      && ValidStore(r.value.0)
      && (r.value.1.Error? ==> r.value.0 == s)
      && (body.None? ==> r.value.1.Error?)
      && (FetchOrFailQuestionnaire(path, questionnaires).Failure? ==>
            r.value.1 == Error(FetchOrFailQuestionnaire(path, questionnaires).error))
      && (r.value.1 == Error(400) <==> path.None? || (FetchOrFailQuestionnaire(path, questionnaires).Success? && body.None?))
  {
    var q := FetchOrFailQuestionnaire(path, questionnaires);
    if q.Success? && body.Some? {
      SaveAnswerKeepsStore(s, q.value, enrolmentId, body.value);
    }
  }

  /** Storing a trigger never fails on this store and leaves the answers alone. */
  lemma SaveTriggerKeepsAnswers(s: Store, enrolmentId: int, trigger: TriggerBody)
    ensures SaveTrigger(s, enrolmentId, trigger).Success?
    ensures var s1 := SaveTrigger(s, enrolmentId, trigger).value.0;
      s1.answers == s.answers && s1.nextAnswerId == s.nextAnswerId
  {
  }

  /** Storing an answer never fails on this store and keeps the answer ids distinct. */
  lemma SaveAnswerKeepsStore(s: Store, questionnaire: Questionnaire, enrolmentId: int, answer: AnswerBody)
    requires ValidStore(s)
    ensures SaveAnswer(s, questionnaire, enrolmentId, answer).Success?
    ensures ValidStore(SaveAnswer(s, questionnaire, enrolmentId, answer).value.0)
  {
    SaveTriggerKeepsAnswers(s, enrolmentId, answer.notificationTrigger);
  }

  /** The two tables of the answer repository. */
  class AnswerDatabase {
    var answers: seq<AnswerRow>
    var triggers: seq<TriggerRow>
    var nextAnswerId: int

    function Model(): Store
      reads this
    {
      Store(answers, triggers, nextAnswerId)
    }

    constructor ()
      ensures Model() == Store([], [], 1)
    {
      answers := [];
      triggers := [];
      nextAnswerId := 1;
    }

    method GetESMAnswerForPendingQuestionnaireId(pendingId: string) returns (r: Option<AnswerRow>)
      ensures r == FindAnswer(answers, pendingId)
    {
      r := FindAnswer(answers, pendingId);
    }

    method GetNotificationTriggerByLocalId(enrolmentId: int, uid: string) returns (r: Option<TriggerRow>)
      ensures r == FindTrigger(triggers, enrolmentId, uid)
    {
      r := FindTrigger(triggers, enrolmentId, uid);
    }

    method UpdateNotificationTrigger(enrolmentId: int, trigger: TriggerBody) returns (r: Option<TriggerBody>)
      modifies this
      ensures r == UpdatedTrigger(old(triggers), enrolmentId, trigger)
      ensures Model() == old(Model()).(triggers := UpdateRows(old(triggers), enrolmentId, trigger))
    {
      r := UpdatedTrigger(triggers, enrolmentId, trigger);
      triggers := UpdateRows(triggers, enrolmentId, trigger);
    }

    method CreateNotificationTrigger(enrolmentId: int, trigger: TriggerBody) returns (r: Option<TriggerBody>)
      modifies this
      ensures r == Some(trigger)
      ensures Model() == old(Model()).(triggers := old(triggers) + [TriggerRow(enrolmentId, trigger)])
    {
      triggers := triggers + [TriggerRow(enrolmentId, trigger)];
      r := Some(trigger);
    }

    method CreateESMAnswer(questionnaire: Questionnaire, enrolmentId: int, answer: AnswerBody, notificationTriggerId: string)
      returns (row: AnswerRow)
      modifies this
      ensures row == NewAnswerRow(old(nextAnswerId), questionnaire, enrolmentId, answer, notificationTriggerId)
      ensures Model() == Store(old(answers) + [row], old(triggers), old(nextAnswerId) + 1)
    {
      row := NewAnswerRow(nextAnswerId, questionnaire, enrolmentId, answer, notificationTriggerId);
      answers := answers + [row];
      nextAnswerId := nextAnswerId + 1;
    }
  }

  /** Whether a handler's outcome and the database after it are those of the specification. */
  predicate Agrees<T(==)>(r: Result<T, string>, expected: Result<(Store, T), string>, before: Store, after: Store)
  {
    && (r.Success? <==> expected.Success?)
    && (r.Success? ==> r.value == expected.value.1 && after == expected.value.0)
    && (r.Failure? ==> after == before)
  }

  /** The controller's handlers over the answer repository. */
  class EsmAnswerController {
    const db: AnswerDatabase

    constructor (db: AnswerDatabase)
      ensures this.db == db
    {
      this.db := db;
    }

    /** `saveOrUpdateNotificationTrigger` */
    method SaveOrUpdateNotificationTrigger(enrolmentId: int, trigger: TriggerBody)
      returns (r: Result<EntityUpdate<string>, string>)
      modifies db
      ensures Agrees(r, SaveTrigger(old(db.Model()), enrolmentId, trigger), old(db.Model()), db.Model())
    {
      var existing := db.GetNotificationTriggerByLocalId(enrolmentId, trigger.uid);
      if existing.Some? && existing.value.trigger.updatedAt >= trigger.updatedAt {
        return Success(EntityUpdate(Skipped, existing.value.trigger.uid));
      }
      if existing.Some? {
        var updated := db.UpdateNotificationTrigger(enrolmentId, trigger);
        if updated.Some? {
          return Success(EntityUpdate(Updated, updated.value.uid));
        }
      } else {
        var created := db.CreateNotificationTrigger(enrolmentId, trigger);
        if created.Some? {
          return Success(EntityUpdate(Created, created.value.uid));
        }
      }
      return Failure(TriggerFailure);
    }

    /** `saveOrUpdateAnswer` */
    method SaveOrUpdateAnswer(questionnaire: Questionnaire, enrolmentId: int, answer: AnswerBody)
      returns (r: Result<EntityUpdate<int>, string>)
      modifies db
      ensures Agrees(r, SaveAnswer(old(db.Model()), questionnaire, enrolmentId, answer), old(db.Model()), db.Model())
    {
      var existing := db.GetESMAnswerForPendingQuestionnaireId(answer.pendingQuestionnaireId);
      if existing.Some? && existing.value.status == Completed {
        return Success(EntityUpdate(Skipped, existing.value.id));
      }
      var saved := SaveOrUpdateNotificationTrigger(enrolmentId, answer.notificationTrigger);
      if saved.Failure? {
        return Failure(saved.error);
      }
      var created := db.CreateESMAnswer(questionnaire, enrolmentId, answer, saved.value.id);
      return Success(EntityUpdate(Created, created.id));
    }

    /** The answer route. */
    method PostAnswerRoute(path: Option<QuestionnairePath>, questionnaires: map<int, Questionnaire>,
                           body: Option<AnswerBody>, enrolmentId: int)
      returns (r: Result<Response, string>)
      modifies db
      ensures Agrees(r, PostAnswer(old(db.Model()), path, questionnaires, body, enrolmentId), old(db.Model()), db.Model())
    {
      var questionnaire := FetchOrFailQuestionnaire(path, questionnaires);
      if questionnaire.Failure? {
        return Success(Error(questionnaire.error));
      }
      if body.None? {
        return Success(Error(400));
      }
      var result := SaveOrUpdateAnswer(questionnaire.value, enrolmentId, body.value);
      if result.Failure? {
        return Failure(result.error);
      }
      return Success(Json(result.value));
    }
  }
}
