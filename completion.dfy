/**
 * The backend's completion endpoint: for each label of a study's completion tracking, whether the
 * participant meets every condition listed under it. A condition asks for a number of answered
 * questionnaires or a number of distinct days with sensor data.
 *
 * The two counts are what the completion repository's queries give for the enrolment; `dbError`
 * says that those queries fail. The enrolment and the study are what the repositories find (or not).
 */
module Completion {
  import opened Wrappers

  datatype ItemType = EMAAnswered | PassiveSensingParticipationDays | OtherType(name: string)

  /** A completion condition; `value` is a JSON number. */
  datatype CompletionItem = CompletionItem(kind: ItemType, value: real)

  /** The counts the repository gives for the enrolment. */
  datatype Counts = Counts(emasAnswered: nat, daysWithSensorData: nat)

  datatype Enrolment = Enrolment(id: int, studyId: int)

  /** A study; its completion tracking is a JSON object from label to conditions, in key order. */
  datatype Study = Study(id: int, completionTracking: Option<seq<(string, seq<CompletionItem>)>>)

  datatype Response = Json(labels: map<string, bool>) | Error(code: int)

  /** Whether an item is checked at all: the `switch` has no case for another type. */
  predicate IsChecked(item: CompletionItem)
  {
    !item.kind.OtherType?
  }

  /** What one checked item pushes: its count compared with its value. */
  function ItemHolds(item: CompletionItem, counts: Counts): bool
    requires IsChecked(item)
  {
    match item.kind
    case EMAAnswered => counts.emasAnswered as real >= item.value
    case PassiveSensingParticipationDays => counts.daysWithSensorData as real >= item.value
  }

  /** The `conditionSatisfied` array: one entry per checked item, in order. */
  function Pushed(items: seq<CompletionItem>, counts: Counts): (r: seq<bool>)
    ensures |r| <= |items|
  {
    if |items| == 0 then []
    else
      var rest := Pushed(items[..|items| - 1], counts);
      var item := items[|items| - 1];
      if IsChecked(item) then rest + [ItemHolds(item, counts)] else rest
  }

  /** `every((v) => v)` */
  predicate Every(values: seq<bool>)
  {
    forall i :: 0 <= i < |values| ==> values[i]
  }

  /** What a label means: every checked item holds. */
  predicate AllConditionsMet(items: seq<CompletionItem>, counts: Counts)
  {
    forall i :: 0 <= i < |items| && IsChecked(items[i]) ==> ItemHolds(items[i], counts)
  }

  /** The array is all true exactly when every checked item holds. */
  lemma {:induction false} PushedMeansConditions(items: seq<CompletionItem>, counts: Counts)
    ensures Every(Pushed(items, counts)) <==> AllConditionsMet(items, counts)
  {
    if |items| > 0 {
      var front := items[..|items| - 1];
      PushedMeansConditions(front, counts);
      assert forall i :: 0 <= i < |front| ==> front[i] == items[i];
      var rest := Pushed(front, counts);
      var last := items[|items| - 1];
      if IsChecked(last) {
        var pushed := rest + [ItemHolds(last, counts)];
        assert Pushed(items, counts) == pushed;
        assert forall i :: 0 <= i < |rest| ==> pushed[i] == rest[i];
        assert Every(pushed) <==> Every(rest) && ItemHolds(last, counts) by {
          assert pushed[|rest|] == ItemHolds(last, counts);
        }
        assert AllConditionsMet(items, counts) <==> AllConditionsMet(front, counts) && ItemHolds(last, counts);
      } else {
        assert AllConditionsMet(items, counts) <==> AllConditionsMet(front, counts);
      }
    }
  }

  /**
   * `meetsAllCompletionConditions`: builds the array item by item and returns whether all its
   * entries are true.
   */
  method MeetsAllCompletionConditions(items: seq<CompletionItem>, counts: Counts) returns (satisfied: bool)
    ensures satisfied <==> AllConditionsMet(items, counts)
  {
    var conditionSatisfied: seq<bool> := [];
    for i := 0 to |items|
      invariant conditionSatisfied == Pushed(items[..i], counts)
    {
      assert items[..i + 1][..i] == items[..i];
      var item := items[i];
      match item.kind {
        case EMAAnswered =>
          conditionSatisfied := conditionSatisfied + [counts.emasAnswered as real >= item.value];
        case PassiveSensingParticipationDays =>
          conditionSatisfied := conditionSatisfied + [counts.daysWithSensorData as real >= item.value];
        case OtherType(_) =>
      }
    }
    assert items[..|items|] == items;
    satisfied := true;
    for i := 0 to |conditionSatisfied|
      invariant satisfied <==> forall j :: 0 <= j < i ==> conditionSatisfied[j]
    {
      satisfied := satisfied && conditionSatisfied[i];
    }
    PushedMeansConditions(items, counts);
  }

  /** The conditions hold for an empty list; an EMA or sensing item alone holds exactly when its count reaches its value. */
  lemma SingleConditions(counts: Counts, value: real, name: string)
    ensures AllConditionsMet([], counts)
    ensures AllConditionsMet([CompletionItem(EMAAnswered, value)], counts) <==> counts.emasAnswered as real >= value
    ensures AllConditionsMet([CompletionItem(PassiveSensingParticipationDays, value)], counts) <==> counts.daysWithSensorData as real >= value
    ensures AllConditionsMet([CompletionItem(OtherType(name), value)], counts)
  {
    var ema := [CompletionItem(EMAAnswered, value)];
    assert AllConditionsMet(ema, counts) <==> ItemHolds(ema[0], counts);
    var sensing := [CompletionItem(PassiveSensingParticipationDays, value)];
    assert AllConditionsMet(sensing, counts) <==> ItemHolds(sensing[0], counts);
  }

  /** More answers or more days never turn a met label into an unmet one. */
  lemma {:induction false} MonotoneInCounts(items: seq<CompletionItem>, counts: Counts, more: Counts)
    requires counts.emasAnswered <= more.emasAnswered && counts.daysWithSensorData <= more.daysWithSensorData
    requires AllConditionsMet(items, counts)
    ensures AllConditionsMet(items, more)
  {
    forall i | 0 <= i < |items| && IsChecked(items[i]) ensures ItemHolds(items[i], more) {
      assert ItemHolds(items[i], counts);
    }
  }

  function Keys(tracking: seq<(string, seq<CompletionItem>)>): set<string>
  {
    set i | 0 <= i < |tracking| :: tracking[i].0
  }

  /** The keys of a JSON object are distinct. */
  predicate DistinctKeys(tracking: seq<(string, seq<CompletionItem>)>)
  {
    forall i, j :: 0 <= i < j < |tracking| ==> tracking[i].0 != tracking[j].0
  }

  /** The labels of the first `n` keys. */
  predicate LabelsFor(labels: map<string, bool>, tracking: seq<(string, seq<CompletionItem>)>, counts: Counts)
  {
    && labels.Keys == Keys(tracking)
    && forall i :: 0 <= i < |tracking| ==> labels[tracking[i].0] == AllConditionsMet(tracking[i].1, counts)
  }

  /** `getCompletionLabels`: one label per key, each true exactly when all its conditions are met. */
  method GetCompletionLabels(tracking: seq<(string, seq<CompletionItem>)>, counts: Counts) returns (labels: map<string, bool>)
    requires DistinctKeys(tracking)
    ensures LabelsFor(labels, tracking, counts)
  {
    labels := map[];
    for i := 0 to |tracking|
      invariant LabelsFor(labels, tracking[..i], counts)
    {
      var conditionSatisfied := MeetsAllCompletionConditions(tracking[i].1, counts);
      labels := labels[tracking[i].0 := conditionSatisfied];
      assert Keys(tracking[..i + 1]) == Keys(tracking[..i]) + {tracking[i].0} by {
        assert forall j :: 0 <= j < i ==> tracking[..i + 1][j] == tracking[..i][j];
      }
      var done := tracking[..i + 1];
      forall j | 0 <= j < i + 1
        ensures labels[done[j].0] == AllConditionsMet(done[j].1, counts)
      {
        if j < i {
          assert done[j] == tracking[..i][j];
        }
      }
    }
    assert tracking[..|tracking|] == tracking;
  }

  /** Whether some item of some label makes a query: only then can a database error surface. */
  predicate Queries(tracking: seq<(string, seq<CompletionItem>)>)
  {
    exists i, j :: 0 <= i < |tracking| && 0 <= j < |tracking[i].1| && IsChecked(tracking[i].1[j])
  }

  /**
   * `GET /v1/completion`: 403 without an enrolment, 404 without its study, 400 when the study does
   * not track completion, 500 when a count query fails, and otherwise the labels.
   */
  method GetCompletion(enrolment: Option<Enrolment>, studies: map<int, Study>, counts: Counts, dbError: bool)
    returns (response: Response)
    requires forall id :: id in studies && studies[id].completionTracking.Some? ==> DistinctKeys(studies[id].completionTracking.value)
    ensures response == Error(403) <==> enrolment.None?
    ensures response == Error(404) <==> enrolment.Some? && enrolment.value.studyId !in studies
    ensures response == Error(400) <==>
      enrolment.Some? && enrolment.value.studyId in studies && studies[enrolment.value.studyId].completionTracking.None?
    ensures response == Error(500) <==>
      && enrolment.Some? && enrolment.value.studyId in studies
      && studies[enrolment.value.studyId].completionTracking.Some?
      && dbError && Queries(studies[enrolment.value.studyId].completionTracking.value)
    ensures response.Json? ==>
      LabelsFor(response.labels, studies[enrolment.value.studyId].completionTracking.value, counts)
  {
    if enrolment.None? {
      return Error(403);
    }
    if enrolment.value.studyId !in studies {
      return Error(404);
    }
    var study := studies[enrolment.value.studyId];
    if study.completionTracking.None? {
      return Error(400);
    }
    var tracking := study.completionTracking.value;
    if dbError && Queries(tracking) {
      return Error(500);
    }
    var labels := GetCompletionLabels(tracking, counts);
    return Json(labels);
  }
}
