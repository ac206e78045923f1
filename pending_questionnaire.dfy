/**
 * The pending_questionnaire table: a questionnaire the participant has been notified about,
 * with its validity window, the answers saved so far and its progress
 * (notified, then pending once opened, then completed).
 */
module PendingQuestionnaires {
  import opened Wrappers
  import opened Triggers
  import opened ElementValues
  import Seqs

  datatype PendingStatus = Notified | Pending | Completed

  /** Where the questionnaire is shown: the inbox, or a notification trigger's own view. */
  datatype DisplayType = Inbox | NotificationTriggerDisplay

  /** A questionnaire as the app stores it; `json` stands for its serialised form. */
  datatype FullQuestionnaire = FullQuestionnaire(id: int, name: string, json: string)

  /** The validity of a trigger that never expires. */
  const NoExpiry: int := -1

  /** A row of pending_questionnaire; UUIDs are integers here. */
  datatype PendingRecord = PendingRecord(
    uid: int,
    addedAt: int,
    validUntil: int,
    questionnaireJson: string,
    triggerJson: string,
    elementValuesJson: Option<string>,
    updatedAt: int,
    openedPage: Option<int>,
    status: PendingStatus,
    finishedAt: Option<int>,
    notificationTriggerUid: Option<int>,
    sourcePendingNotificationId: Option<int>,
    displayType: DisplayType)

  function HasId(id: int): FullQuestionnaire -> bool
  {
    (q: FullQuestionnaire) => q.id == id
  }

  /**
   * `createEntry`: the record for a trigger, or None when no stored questionnaire has the
   * trigger's questionnaire id. `uid` is the fresh random UUID and `now` the clock.
   */
  function CreateEntry(questionnaires: seq<FullQuestionnaire>, trigger: QuestionnaireTrigger,
                       notificationTriggerUid: Option<int>, sourcePendingNotificationId: Option<int>,
                       uid: int, now: int): (r: Option<PendingRecord>)
    ensures r.None? <==> forall i :: 0 <= i < |questionnaires| ==> questionnaires[i].id != trigger.questionnaireId
    ensures r.Some? ==>
      && r.value.uid == uid && r.value.addedAt == now && r.value.updatedAt == now
      && r.value.validUntil == (if trigger.validDuration == NoExpiry then NoExpiry else now + trigger.validDuration * 60000)
      && (r.value.displayType == NotificationTriggerDisplay <==> notificationTriggerUid.Some?)
      && r.value.status == Notified && r.value.openedPage == Some(-1)
      && r.value.elementValuesJson.None? && r.value.finishedAt.None?
      && r.value.triggerJson == trigger.json
      && r.value.notificationTriggerUid == notificationTriggerUid
      && r.value.sourcePendingNotificationId == sourcePendingNotificationId
  {
    match Seqs.Find(questionnaires, HasId(trigger.questionnaireId))
    case None => None
    case Some(q) =>
      var validUntil := if trigger.validDuration != NoExpiry then now + trigger.validDuration * 1000 * 60 else NoExpiry;
      var displayType := if notificationTriggerUid.Some? then NotificationTriggerDisplay else Inbox;
      Some(PendingRecord(uid, now, validUntil, q.json, trigger.json, None, now, Some(-1), Notified, None,
                         notificationTriggerUid, sourcePendingNotificationId, displayType))
  }

  /** `getAllNotExpired`: valid after `now`, or never expiring. */
  predicate NotExpired(r: PendingRecord, now: int)
  {
    r.validUntil > now || r.validUntil == NoExpiry
  }

  /** `distanceMillis` of an inbox item: the time left until it expires. */
  function DistanceMillis(validUntil: int, now: int): int
  {
    validUntil - now
  }

  /**
   * A new entry created at a clock reading `now` (milliseconds since the epoch, so not negative)
   * for a trigger with a validity of d >= 0 minutes stays listed for exactly d minutes, and its remaining time counts down from d minutes; one without expiry stays
   * listed for ever.
   */
  lemma NewEntryValidity(questionnaires: seq<FullQuestionnaire>, trigger: QuestionnaireTrigger,
                         notificationTriggerUid: Option<int>, source: Option<int>, uid: int, now: int, later: int)
    requires CreateEntry(questionnaires, trigger, notificationTriggerUid, source, uid, now).Some?
    requires trigger.validDuration >= 0 && now >= 0
    ensures var r := CreateEntry(questionnaires, trigger, notificationTriggerUid, source, uid, now).value;
      && (NotExpired(r, later) <==> later < now + trigger.validDuration * 60000)
      && DistanceMillis(r.validUntil, later) == trigger.validDuration * 60000 - (later - now)
  {
  }

  lemma NewEntryWithoutExpiry(questionnaires: seq<FullQuestionnaire>, trigger: QuestionnaireTrigger,
                              notificationTriggerUid: Option<int>, source: Option<int>, uid: int, now: int, later: int)
    requires CreateEntry(questionnaires, trigger, notificationTriggerUid, source, uid, now).Some?
    requires trigger.validDuration == NoExpiry
    ensures NotExpired(CreateEntry(questionnaires, trigger, notificationTriggerUid, source, uid, now).value, later)
  {
  }

  /** What happens to a record: `update` when the questionnaire is saved, `markCompleted` when answered. */
  datatype Change =
    | Update(values: Option<ValueMap>, openedPage: Option<int>, at: int)
    | MarkCompleted(completedValues: ValueMap, completedAt: int)

  /** The value map a change saves: its map when that is present and not empty, else none. */
  function SavedBy(c: Change): (m: Option<ValueMap>)
    ensures m.Some? ==> |m.value| > 0
    ensures m.Some? <==> (c.Update? && c.values.Some? && |c.values.value| > 0) || (c.MarkCompleted? && |c.completedValues| > 0)
  {
    match c
    case Update(values, _, _) => if values.Some? && |values.value| > 0 then values else None
    case MarkCompleted(values, _) => if |values| > 0 then Some(values) else None
  }

  /**
   * The record after a change. `serialise` stands for the element-value map's JSON text; the
   * saved values are only replaced by a non-empty map.
   */
  function Apply(r: PendingRecord, c: Change, serialise: ValueMap -> string): (r': PendingRecord)
    ensures r'.uid == r.uid && r'.validUntil == r.validUntil && r'.addedAt == r.addedAt
    ensures r'.displayType == r.displayType && r'.notificationTriggerUid == r.notificationTriggerUid
    ensures r'.status == (if c.Update? then Pending else Completed)
    ensures r'.updatedAt == (if c.Update? then c.at else c.completedAt)
    ensures r'.elementValuesJson == (if SavedBy(c).Some? then Some(serialise(SavedBy(c).value)) else r.elementValuesJson)
    ensures c.Update? ==> r'.openedPage == c.openedPage && r'.finishedAt == r.finishedAt
    ensures c.MarkCompleted? ==> r'.finishedAt == Some(c.completedAt) && r'.openedPage == r.openedPage
    ensures r'.questionnaireJson == r.questionnaireJson && r'.triggerJson == r.triggerJson
    ensures r'.sourcePendingNotificationId == r.sourcePendingNotificationId
  {
    match c
    case Update(values, openedPage, at) =>
      var json := if values.Some? && |values.value| > 0 then Some(serialise(values.value)) else r.elementValuesJson;
      r.(updatedAt := at, openedPage := openedPage, status := Pending, elementValuesJson := json)
    case MarkCompleted(values, at) =>
      var json := if |values| > 0 then Some(serialise(values)) else r.elementValuesJson;
      r.(updatedAt := at, finishedAt := Some(at), status := Completed, elementValuesJson := json)
  }

  function ApplyAll(r: PendingRecord, cs: seq<Change>, serialise: ValueMap -> string): PendingRecord
    decreases |cs|
  {
    if |cs| == 0 then r else ApplyAll(Apply(r, cs[0], serialise), cs[1..], serialise)
  }

  /** Saved answers are never cleared: once there are saved values, any run of changes keeps some. */
  lemma {:induction false} SavedValuesNeverCleared(r: PendingRecord, cs: seq<Change>, serialise: ValueMap -> string)
    requires r.elementValuesJson.Some?
    ensures ApplyAll(r, cs, serialise).elementValuesJson.Some?
    decreases |cs|
  {
    if |cs| > 0 {
      SavedValuesNeverCleared(Apply(r, cs[0], serialise), cs[1..], serialise);
    }
  }

  /** A run of changes none of which carries a non-empty map keeps the saved text as it was. */
  lemma {:induction false} NoValuesKeepText(r: PendingRecord, cs: seq<Change>, serialise: ValueMap -> string)
    requires forall i :: 0 <= i < |cs| ==> SavedBy(cs[i]).None?
    ensures ApplyAll(r, cs, serialise).elementValuesJson == r.elementValuesJson
    decreases |cs|
  {
    if |cs| > 0 {
      NoValuesKeepText(Apply(r, cs[0], serialise), cs[1..], serialise);
    }
  }

  /**
   * The saved text is the serialisation of the last non-empty map a change carried: after the
   * change at k, the later changes carry none and leave it alone.
   */
  lemma {:induction false} LastValuesSaved(r: PendingRecord, cs: seq<Change>, serialise: ValueMap -> string, k: int)
    requires 0 <= k < |cs| && SavedBy(cs[k]).Some?
    requires forall i :: k < i < |cs| ==> SavedBy(cs[i]).None?
    ensures ApplyAll(r, cs, serialise).elementValuesJson == Some(serialise(SavedBy(cs[k]).value))
    decreases |cs|
  {
    if k > 0 {
      LastValuesSaved(Apply(r, cs[0], serialise), cs[1..], serialise, k - 1);
    } else {
      NoValuesKeepText(Apply(r, cs[0], serialise), cs[1..], serialise);
    }
  }

  /**
   * A run of changes that ends in a completion leaves the record completed at that moment;
   * an update after a completion puts it back to pending.
   */
  lemma {:induction false} LastChangeDecidesStatus(r: PendingRecord, cs: seq<Change>, serialise: ValueMap -> string)
    requires |cs| > 0
    ensures var last := cs[|cs| - 1];
      && ApplyAll(r, cs, serialise).status == (if last.Update? then Pending else Completed)
      && (last.MarkCompleted? ==> ApplyAll(r, cs, serialise).finishedAt == Some(last.completedAt))
    decreases |cs|
  {
    if |cs| > 1 {
      assert cs[1..][|cs[1..]| - 1] == cs[|cs| - 1];
      LastChangeDecidesStatus(Apply(r, cs[0], serialise), cs[1..], serialise);
    }
  }

  /** The pending_questionnaire table, keyed by uid. */
  class PendingTable {
    var rows: map<int, PendingRecord>

    constructor ()
      ensures rows == map[]
    {
      rows := map[];
    }

    /** `insert`: a new row; the key must be new. */
    method Insert(r: PendingRecord)
      requires r.uid !in rows
      modifies this
      ensures rows == old(rows)[r.uid := r]
    {
      rows := rows[r.uid := r];
    }

    /** `update`: replaces the row with the same key; no row, no change. */
    method Update(r: PendingRecord)
      modifies this
      ensures rows == if r.uid in old(rows) then old(rows)[r.uid := r] else old(rows)
    {
      if r.uid in rows {
        rows := rows[r.uid := r];
      }
    }

    /** `getById`. */
    function GetById(uid: int): (r: Option<PendingRecord>)
      reads this
      ensures r.Some? <==> uid in rows
      ensures r.Some? ==> r.value == rows[uid]
    {
      if uid in rows then Some(rows[uid]) else None
    }
  }

  /** `createEntry` with its insert: the uid of the stored entry, or None with nothing stored. */
  method CreateAndStore(db: PendingTable, questionnaires: seq<FullQuestionnaire>, trigger: QuestionnaireTrigger,
                        notificationTriggerUid: Option<int>, sourcePendingNotificationId: Option<int>,
                        uid: int, now: int) returns (r: Option<int>)
    requires uid !in db.rows
    modifies db
    ensures var entry := CreateEntry(questionnaires, trigger, notificationTriggerUid, sourcePendingNotificationId, uid, now);
      && (entry.None? ==> r.None? && db.rows == old(db.rows))
      && (entry.Some? ==> r == Some(uid) && db.rows == old(db.rows)[uid := entry.value])
  {
    var entry := CreateEntry(questionnaires, trigger, notificationTriggerUid, sourcePendingNotificationId, uid, now);
    if entry.None? {
      return None;
    }
    db.Insert(entry.value);
    r := Some(uid);
  }

  /** A pending questionnaire as loaded from the table; the var fields are the ones the app changes. */
  class PendingQuestionnaire {
    const uid: int
    const addedAt: int
    const validUntil: int
    const questionnaireJson: string
    const triggerJson: string
    var elementValuesJson: Option<string>
    var updatedAt: int
    var openedPage: Option<int>
    var status: PendingStatus
    var finishedAt: Option<int>
    var notificationTriggerUid: Option<int>
    const sourcePendingNotificationId: Option<int>
    const displayType: DisplayType

    function Record(): PendingRecord
      reads this
    {
      PendingRecord(uid, addedAt, validUntil, questionnaireJson, triggerJson, elementValuesJson, updatedAt,
                    openedPage, status, finishedAt, notificationTriggerUid, sourcePendingNotificationId, displayType)
    }

    constructor (r: PendingRecord)
      ensures Record() == r
    {
      uid := r.uid;
      addedAt := r.addedAt;
      validUntil := r.validUntil;
      questionnaireJson := r.questionnaireJson;
      triggerJson := r.triggerJson;
      elementValuesJson := r.elementValuesJson;
      updatedAt := r.updatedAt;
      openedPage := r.openedPage;
      status := r.status;
      finishedAt := r.finishedAt;
      notificationTriggerUid := r.notificationTriggerUid;
      sourcePendingNotificationId := r.sourcePendingNotificationId;
      displayType := r.displayType;
    }

    /** `update`: pending, the page the participant is on, and the values when there are any; then stored. */
    method Update(db: PendingTable, values: Option<ValueMap>, page: Option<int>, now: int,
                  serialise: ValueMap -> string)
      modifies this, db
      ensures Record() == Apply(old(Record()), Change.Update(values, page, now), serialise)
      ensures db.rows == if uid in old(db.rows) then old(db.rows)[uid := Record()] else old(db.rows)
    {
      updatedAt := now;
      openedPage := page;
      status := Pending;
      if values.Some? && |values.value| > 0 {
        elementValuesJson := Some(serialise(values.value));
      }
      db.Update(Record());
    }

    /** `markCompleted`: completed at `now`, and the values when there are any; then stored. */
    method MarkCompleted(db: PendingTable, values: ValueMap, now: int,
                         serialise: ValueMap -> string)
      modifies this, db
      ensures Record() == Apply(old(Record()), Change.MarkCompleted(values, now), serialise)
      ensures db.rows == if uid in old(db.rows) then old(db.rows)[uid := Record()] else old(db.rows)
    {
      updatedAt := now;
      finishedAt := Some(now);
      status := Completed;
      if |values| > 0 {
        elementValuesJson := Some(serialise(values));
      }
      db.Update(Record());
    }
  }
}
