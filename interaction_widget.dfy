/**
 * The floating widget that asks the participant whether they are in a face-to-face interaction.
 * When the service is created it shows the widget according to the current phase's display
 * strategy (always, or at most once per two-hour bucket after a dice throw, or never); the Yes and
 * No buttons drive a small state machine over the stored `inInteraction` flag and the service's
 * `askedAnotherInteraction` flag, logging each answer to the log service.
 *
 * The clock reading and the dice throw are parameters; the window manager is reduced to whether
 * the widget is visible and how many times it was inflated. A log message reaches the log service
 * only while the service is bound to it.
 */
module InteractionWidget {
  import opened Wrappers
  import opened Study
  import DS = DataStore
  import BucketedWidget
  import EsmHandler
  import Triggers

  /** `InteractionLogType` */
  datatype InteractionLogType =
    | Asked | Start | End | Confirm | ConfirmAnotherInteraction | ConfirmSameInteraction | NoInteraction
    | NotAskedAlreadyDisplayedInBucket | NotAskedNotDisplayedInBucket

  /** The message `logInteractionMessage` sends for each type. */
  function LogMessage(t: InteractionLogType): string
  {
    match t
    case Asked => "asked"
    case Start => "start"
    case End => "end"
    case Confirm => "confirm"
    case ConfirmAnotherInteraction => "confirmAnotherInteraction"
    case ConfirmSameInteraction => "confirmSameInteraction"
    case NoInteraction => "noInteraction"
    case NotAskedAlreadyDisplayedInBucket => "notAskedAlreadyDisplayedInBucket"
    case NotAskedNotDisplayedInBucket => "notAskedNotDisplayedInBucket"
  }

  /** Each log type is sent as its own message, so the log service can tell them apart. */
  lemma LogMessagesDistinct(a: InteractionLogType, b: InteractionLogType)
    ensures LogMessage(a) == LogMessage(b) ==> a == b
  {
  }

  /** The question the widget shows. */
  datatype Question = AreYouInteracting | StillInteracting | IsSameInteraction

  /** The broadcast sent when an interaction ends. */
  const InteractionEndEvent: string := "interactionEnd"

  /** The service's own state. */
  datatype WidgetState = WidgetState(
    askedAnotherInteraction: bool,
    question: Question,
    visible: bool,
    renders: nat,
    logConnected: bool,
    logged: seq<string>,
    broadcasts: seq<string>)

  /** The service's state together with the stored settings it reads and writes. */
  datatype ServiceState = ServiceState(widget: WidgetState, settings: DS.AppSettings)

  /** The state of a newly created service: question "are you interacting", no widget, not bound. */
  const Initial: WidgetState := WidgetState(false, AreYouInteracting, false, 0, false, [], [])

  /** `sendDataToLogService`: the message is sent only while bound to the log service. */
  function Log(w: WidgetState, t: InteractionLogType): (r: WidgetState)
    ensures r == w.(logged := r.logged)
    ensures r.logged == if w.logConnected then w.logged + [LogMessage(t)] else w.logged
  {
    if w.logConnected then w.(logged := w.logged + [LogMessage(t)]) else w
  }

  /** `renderWidget`: a new widget showing the current question. */
  function Render(w: WidgetState): WidgetState
  {
    w.(visible := true, renders := w.renders + 1)
  }

  /**
   * The coroutine `onCreate` launches: nothing outside a phase; while in an interaction, the
   * widget asks whether it goes on; otherwise the phase's strategy decides. The bucketed
   * strategy shows the widget only in a bucket not yet recorded and only when the dice say so, and
   * then records the bucket.
   */
  function Create(s: ServiceState, now: int, dice: bool): ServiceState
  {
    var phase := DS.CurrentStudyPhase(s.settings, now);
    if phase.None? then s
    else if s.settings.inInteraction then s.(widget := Render(s.widget.(question := StillInteracting)))
    else
      var w := s.widget.(question := AreYouInteracting);
      match phase.value.interactionWidgetStrategy
      case Default => s.(widget := Render(w))
      case Bucketed =>
        var buckets := s.settings.interactionWidgetTimeBucket;
        var bucket := BucketedWidget.CurrentTimeBucket(now);
        if bucket !in buckets && dice then
          ServiceState(Render(w), DS.Apply(s.settings, now, DS.SetInteractionWidgetTimeBucket(buckets[bucket := true])))
        else s.(widget := w)
      case Hidden => s.(widget := w)
  }

  /**
   * `answerYes`: in an interaction, the first Yes asks whether it is the same interaction and the
   * second confirms it and hides the widget; outside one, Yes hides the widget and logs its start.
   * Either way the stored flag becomes true.
   */
  function Yes(s: ServiceState, now: int): ServiceState
  {
    var w := s.widget;
    var w' :=
      if s.settings.inInteraction then
        if w.askedAnotherInteraction then Log(w, ConfirmSameInteraction).(visible := false, askedAnotherInteraction := false)
        else w.(question := IsSameInteraction, askedAnotherInteraction := true)
      else Log(w.(visible := false), Start);
    ServiceState(w', DS.Apply(s.settings, now, DS.SetInInteraction(true)))
  }

  /** Whether `answerNo` ends the interaction: in one, and not answering the "same interaction?" question. */
  predicate EndsInteraction(s: ServiceState)
  {
    s.settings.inInteraction && !s.widget.askedAnotherInteraction
  }

  /**
   * `answerNo`: hides the widget; answering "same interaction?" with No confirms another one; a No
   * in an interaction otherwise ends it, with the `interactionEnd` broadcast (and the ESM triggers
   * initialised, see `NoTriggers`); outside one it logs that there is none. Either way the
   * stored flag becomes false.
   */
  function No(s: ServiceState, now: int): ServiceState
  {
    var w := s.widget.(visible := false);
    var w' :=
      if s.settings.inInteraction then
        if w.askedAnotherInteraction then Log(w.(askedAnotherInteraction := false), ConfirmAnotherInteraction)
        else Log(w, End).(broadcasts := w.broadcasts + [InteractionEndEvent])
      else Log(w, NoInteraction);
    ServiceState(w', DS.Apply(s.settings, now, DS.SetInInteraction(false)))
  }

  /** The ESM handler's triggers after `initializeTriggers` reads the stored questionnaires. */
  function Initialized(triggers: seq<Triggers.QuestionnaireTrigger>, questionnaires: seq<seq<Triggers.QuestionnaireTrigger>>)
    : seq<Triggers.QuestionnaireTrigger>
  {
    if triggers != [] then triggers else EsmHandler.Flatten(questionnaires)
  }

  /** The triggers after `answerNo`: initialised only when the No ends the interaction. */
  function NoTriggers(s: ServiceState, triggers: seq<Triggers.QuestionnaireTrigger>,
                      questionnaires: seq<seq<Triggers.QuestionnaireTrigger>>): seq<Triggers.QuestionnaireTrigger>
  {
    if EndsInteraction(s) then Initialized(triggers, questionnaires) else triggers
  }

  // ---------------------------------------------------------------------------------------------
  // The answer state machine
  // ---------------------------------------------------------------------------------------------

  /** Yes outside an interaction starts one: the widget hides, the start is logged, the flag is set. */
  lemma YesStartsInteraction(s: ServiceState, now: int)
    requires !s.settings.inInteraction
    ensures var r := Yes(s, now);
            && r.settings.inInteraction && !r.widget.visible
            && r.widget.askedAnotherInteraction == s.widget.askedAnotherInteraction
            && r.widget.logged == if s.widget.logConnected then s.widget.logged + ["start"] else s.widget.logged
  {
  }

  /**
   * In an interaction, Yes first asks whether it is the same one and leaves the widget up; a
   * second Yes confirms it, hides the widget and clears the question.
   */
  lemma YesTwiceConfirmsSame(s: ServiceState, now1: int, now2: int)
    requires s.settings.inInteraction && !s.widget.askedAnotherInteraction
    ensures var once := Yes(s, now1);
            && once.widget.askedAnotherInteraction && once.widget.question == IsSameInteraction
            && once.widget.visible == s.widget.visible && once.widget.logged == s.widget.logged
            && once.settings.inInteraction
    ensures var twice := Yes(Yes(s, now1), now2);
            && !twice.widget.askedAnotherInteraction && !twice.widget.visible && twice.settings.inInteraction
            && twice.widget.logged == if s.widget.logConnected then s.widget.logged + ["confirmSameInteraction"] else s.widget.logged
  {
  }

  /**
   * No in an interaction: after the "same interaction?" question it confirms another interaction;
   * otherwise it ends the interaction with the end broadcast. Either way the flag is cleared.
   */
  lemma NoInInteraction(s: ServiceState, now: int)
    requires s.settings.inInteraction
    ensures var r := No(s, now);
            && !r.settings.inInteraction && !r.widget.visible && !r.widget.askedAnotherInteraction
            && (s.widget.askedAnotherInteraction ==>
                  r.widget.broadcasts == s.widget.broadcasts
                  && r.widget.logged == if s.widget.logConnected then s.widget.logged + ["confirmAnotherInteraction"] else s.widget.logged)
            && (!s.widget.askedAnotherInteraction ==>
                  r.widget.broadcasts == s.widget.broadcasts + [InteractionEndEvent]
                  && r.widget.logged == if s.widget.logConnected then s.widget.logged + ["end"] else s.widget.logged)
  {
  }

  /** The "same interaction?" question is only pending while the stored flag says the participant is in an interaction. */
  ghost predicate Consistent(s: ServiceState)
  {
    s.widget.askedAnotherInteraction ==> s.settings.inInteraction
  }

  /**
   * Both answers keep that consistent; after No nothing is pending and no interaction is
   * stored, after Yes one is.
   */
  lemma AnswersKeepConsistent(s: ServiceState, now: int)
    requires Consistent(s)
    ensures Consistent(Yes(s, now)) && Yes(s, now).settings.inInteraction
    ensures Consistent(No(s, now)) && !No(s, now).settings.inInteraction
    ensures !No(s, now).widget.askedAnotherInteraction
  {
  }

  /** Each answer sends at most one log message, and only the end of an interaction broadcasts. */
  lemma AnswersLogOnce(s: ServiceState, now: int)
    ensures |Yes(s, now).widget.logged| <= |s.widget.logged| + 1
    ensures |No(s, now).widget.logged| <= |s.widget.logged| + 1
    ensures Yes(s, now).widget.broadcasts == s.widget.broadcasts
    ensures No(s, now).widget.broadcasts != s.widget.broadcasts <==> EndsInteraction(s)
  {
  }

  // ---------------------------------------------------------------------------------------------
  // The display rule
  // ---------------------------------------------------------------------------------------------

  /** Recording the buckets changes them and the update time only. */
  lemma RecordBuckets(settings: DS.AppSettings, now: int, buckets: map<string, bool>)
    ensures DS.Apply(settings, now, DS.SetInteractionWidgetTimeBucket(buckets))
            == settings.(lastUpdate := now, interactionWidgetTimeBucket := buckets)
  {
  }

  /** Recording a bucket does not change the current phase. */
  lemma BucketRecordKeepsPhase(settings: DS.AppSettings, now: int, buckets: map<string, bool>, later: int)
    ensures DS.CurrentStudyPhase(DS.Apply(settings, now, DS.SetInteractionWidgetTimeBucket(buckets)), later)
            == DS.CurrentStudyPhase(settings, later)
  {
    RecordBuckets(settings, now, buckets);
  }

  /**
   * With the bucketed strategy outside an interaction, the widget is shown only in a bucket not
   * yet recorded, and showing it records the bucket; nothing else of the settings changes besides
   * the update time.
   */
  lemma BucketedShowRecordsBucket(s: ServiceState, now: int, dice: bool)
    requires DS.CurrentStudyPhase(s.settings, now).Some?
    requires DS.CurrentStudyPhase(s.settings, now).value.interactionWidgetStrategy == Bucketed
    requires !s.settings.inInteraction
    ensures var r := Create(s, now, dice);
            var bucket := BucketedWidget.CurrentTimeBucket(now);
            var buckets := s.settings.interactionWidgetTimeBucket;
            && (r.widget.renders > s.widget.renders <==> bucket !in buckets && dice)
            && (r.widget.renders > s.widget.renders ==>
                  r.settings == s.settings.(lastUpdate := now, interactionWidgetTimeBucket := buckets[bucket := true]))
            && (r.widget.renders == s.widget.renders ==> r.settings == s.settings)
  {
    var bucket := BucketedWidget.CurrentTimeBucket(now);
    var buckets := s.settings.interactionWidgetTimeBucket;
    CreateBucketed(s, now, dice);
    RecordBuckets(s.settings, now, buckets[bucket := true]);
  }

  /** The bucketed branch of `Create`. */
  lemma CreateBucketed(s: ServiceState, now: int, dice: bool)
    requires DS.CurrentStudyPhase(s.settings, now).Some?
    requires DS.CurrentStudyPhase(s.settings, now).value.interactionWidgetStrategy == Bucketed
    requires !s.settings.inInteraction
    ensures var w := s.widget.(question := AreYouInteracting);
            var bucket := BucketedWidget.CurrentTimeBucket(now);
            var buckets := s.settings.interactionWidgetTimeBucket;
            Create(s, now, dice) ==
              if bucket !in buckets && dice
              then ServiceState(Render(w), DS.Apply(s.settings, now, DS.SetInteractionWidgetTimeBucket(buckets[bucket := true])))
              else s.(widget := w)
  {
  }

  /** A start of the service shows the widget at most once. */
  lemma CreateRendersAtMostOnce(s: ServiceState, now: int, dice: bool)
    ensures s.widget.renders <= Create(s, now, dice).widget.renders <= s.widget.renders + 1
  {
  }

  /** After a bucketed start that showed the widget, its bucket is recorded and the phases are those of before. */
  lemma ShownBucketRecorded(s: ServiceState, now: int, dice: bool, later: int)
    requires DS.CurrentStudyPhase(s.settings, now).Some?
    requires DS.CurrentStudyPhase(s.settings, now).value.interactionWidgetStrategy == Bucketed
    requires !s.settings.inInteraction
    requires Create(s, now, dice).widget.renders > s.widget.renders
    ensures var r := Create(s, now, dice);
            && BucketedWidget.CurrentTimeBucket(now) in r.settings.interactionWidgetTimeBucket
            && !r.settings.inInteraction
            && DS.CurrentStudyPhase(r.settings, later) == DS.CurrentStudyPhase(s.settings, later)
  {
    var bucket := BucketedWidget.CurrentTimeBucket(now);
    var recorded := s.settings.interactionWidgetTimeBucket[bucket := true];
    BucketedShowRecordsBucket(s, now, dice);
    BucketRecordKeepsPhase(s.settings, now, recorded, later);
  }

  /** A bucketed start in a bucket already recorded does not show the widget. */
  lemma RecordedBucketSilent(s: ServiceState, now: int, dice: bool)
    requires DS.CurrentStudyPhase(s.settings, now).Some?
    requires DS.CurrentStudyPhase(s.settings, now).value.interactionWidgetStrategy == Bucketed
    requires !s.settings.inInteraction
    requires BucketedWidget.CurrentTimeBucket(now) in s.settings.interactionWidgetTimeBucket
    ensures Create(s, now, dice).widget.renders == s.widget.renders
  {
    BucketedShowRecordsBucket(s, now, dice);
  }

  /** In one bucket of one bucketed phase, two starts of the service show the widget at most once. */
  lemma BucketedShowsOncePerBucket(s: ServiceState, now1: int, dice1: bool, now2: int, dice2: bool)
    requires DS.CurrentStudyPhase(s.settings, now1).Some?
    requires DS.CurrentStudyPhase(s.settings, now1).value.interactionWidgetStrategy == Bucketed
    requires DS.CurrentStudyPhase(s.settings, now2) == DS.CurrentStudyPhase(s.settings, now1)
    requires BucketedWidget.CurrentTimeBucket(now2) == BucketedWidget.CurrentTimeBucket(now1)
    requires !s.settings.inInteraction
    ensures var first := Create(s, now1, dice1);
            var second := Create(first, now2, dice2);
            second.widget.renders <= s.widget.renders + 1
  {
    var first := Create(s, now1, dice1);
    CreateRendersAtMostOnce(first, now2, dice2);
    if first.widget.renders > s.widget.renders {
      ShownBucketRecorded(s, now1, dice1, now2);
      RecordedBucketSilent(first, now2, dice2);
    } else {
      CreateRendersAtMostOnce(s, now1, dice1);
    }
  }

  /** The default strategy always shows the widget; the hidden one never does outside an interaction. */
  lemma StrategyDecidesOutsideInteraction(s: ServiceState, now: int, dice: bool)
    requires DS.CurrentStudyPhase(s.settings, now).Some?
    requires !s.settings.inInteraction
    ensures var r := Create(s, now, dice);
            var strategy := DS.CurrentStudyPhase(s.settings, now).value.interactionWidgetStrategy;
            && (strategy == Default ==> r.widget.renders == s.widget.renders + 1 && r.widget.visible && r.settings == s.settings)
            && (strategy == Hidden ==> r.widget.renders == s.widget.renders && r.settings == s.settings)
            && r.widget.question == AreYouInteracting
  {
  }

  /** In an interaction the widget always shows, asking whether it goes on; outside a phase nothing happens. */
  lemma InInteractionAlwaysAsks(s: ServiceState, now: int, dice: bool)
    ensures DS.CurrentStudyPhase(s.settings, now).None? ==> Create(s, now, dice) == s
    ensures DS.CurrentStudyPhase(s.settings, now).Some? && s.settings.inInteraction ==>
              var r := Create(s, now, dice);
              r.widget.visible && r.widget.question == StillInteracting && r.settings == s.settings
  {
  }

  /** `InteractionFloatingWidgetService` with the settings store and the ESM handler it uses. */
  class InteractionFloatingWidgetService {
    const dataStore: DS.DataStoreManager
    const esmHandler: EsmHandler.Handler
    var askedAnotherInteraction: bool
    var question: Question
    var visible: bool
    var renders: nat
    var logConnected: bool
    var logged: seq<string>
    var broadcasts: seq<string>

    function Widget(): WidgetState
      reads this
    {
      WidgetState(askedAnotherInteraction, question, visible, renders, logConnected, logged, broadcasts)
    }

    function Model(): ServiceState
      reads this, dataStore
    {
      ServiceState(Widget(), dataStore.settings)
    }

    constructor (dataStore: DS.DataStoreManager, esmHandler: EsmHandler.Handler)
      ensures this.dataStore == dataStore && this.esmHandler == esmHandler
      ensures Widget() == Initial
    {
      this.dataStore := dataStore;
      this.esmHandler := esmHandler;
      askedAnotherInteraction := false;
      question := AreYouInteracting;
      visible := false;
      renders := 0;
      logConnected := false;
      logged := [];
      broadcasts := [];
    }

    /** `sendDataToLogService` through `logInteractionMessage` */
    method LogInteractionMessage(t: InteractionLogType)
      modifies this
      ensures Widget() == Log(old(Widget()), t)
    {
      if logConnected {
        logged := logged + [LogMessage(t)];
      }
    }

    /** `renderWidget` */
    method RenderWidget()
      modifies this
      ensures Widget() == Render(old(Widget()))
    {
      visible := true;
      renders := renders + 1;
    }

    /** `onServiceConnected`: bound to the log service, the service logs that it asked. */
    method OnServiceConnected()
      modifies this
      ensures Widget() == old(Widget()).(logConnected := true, logged := old(logged) + [LogMessage(Asked)])
    {
      logConnected := true;
      LogInteractionMessage(Asked);
    }

    /** `onServiceDisconnected` */
    method OnServiceDisconnected()
      modifies this
      ensures Widget() == old(Widget()).(logConnected := false)
    {
      logConnected := false;
    }

    /** The coroutine launched by `onCreate`. */
    method OnCreate(now: int, dice: bool)
      modifies this, dataStore
      ensures Model() == Create(old(Model()), now, dice)
    {
      var studyPhase := dataStore.GetCurrentStudyPhase(now);
      var isInInteraction := dataStore.settings.inInteraction;
      if studyPhase.None? {
        return;
      }
      if isInInteraction {
        question := StillInteracting;
        RenderWidget();
        return;
      }
      question := AreYouInteracting;
      match studyPhase.value.interactionWidgetStrategy {
        case Default =>
          RenderWidget();
        case Bucketed =>
          var timeBuckets := dataStore.settings.interactionWidgetTimeBucket;
          var currentBucket := BucketedWidget.CurrentTimeBucket(now);
          if currentBucket !in timeBuckets && dice {
            RenderWidget();
            timeBuckets := timeBuckets[currentBucket := true];
            dataStore.Save(DS.SetInteractionWidgetTimeBucket(timeBuckets), now);
          }
        case Hidden =>
      }
    }

    /** `answerYes` */
    method AnswerYes(now: int)
      modifies this, dataStore
      ensures Model() == Yes(old(Model()), now)
    {
      var inInteraction := dataStore.settings.inInteraction;
      if inInteraction {
        if askedAnotherInteraction {
          LogInteractionMessage(ConfirmSameInteraction);
          visible := false;
          askedAnotherInteraction := false;
        } else {
          question := IsSameInteraction;
          askedAnotherInteraction := true;
        }
      } else {
        visible := false;
        LogInteractionMessage(Start);
      }
      dataStore.Save(DS.SetInInteraction(true), now);
    }

    /** `answerNo`, with the questionnaires the ESM handler reads when it initialises its triggers. */
    method AnswerNo(now: int, questionnaires: seq<seq<Triggers.QuestionnaireTrigger>>)
      modifies this, dataStore, esmHandler
      ensures Model() == No(old(Model()), now)
      ensures esmHandler.triggers == NoTriggers(old(Model()), old(esmHandler.triggers), questionnaires)
    {
      visible := false;
      var inInteraction := dataStore.settings.inInteraction;
      if inInteraction {
        if askedAnotherInteraction {
          askedAnotherInteraction := false;
          LogInteractionMessage(ConfirmAnotherInteraction);
        } else {
          LogInteractionMessage(End);
          esmHandler.InitializeTriggers(questionnaires);
          broadcasts := broadcasts + [InteractionEndEvent];
        }
      } else {
        LogInteractionMessage(NoInteraction);
      }
      dataStore.Save(DS.SetInInteraction(false), now);
    }

    /** `onDestroy`: the widget is removed from the screen. */
    method OnDestroy()
      modifies this
      ensures Widget() == old(Widget()).(visible := false)
    {
      visible := false;
    }
  }
}
