/**
 * What the app does when the phone has booted: with the study running and not paused (or its
 * pause over, or without an end), sampling starts unless it is already running; a running study
 * that is paused schedules the alarm that resumes sampling at the end of the pause; any other
 * study state does nothing.
 *
 * The receiver collects the stored pause flag, pause end and study state; every value the
 * stored settings emit is handled again, in order. Each emission carries the clock reading it is
 * handled at.
 */
module BootReceiver {
  import opened Wrappers
  import opened DataStore

  const BootCompletedAction: string := "android.intent.action.BOOT_COMPLETED"

  /** The decision for one emission of the stored settings. */
  datatype BootAction = StartSampling | ScheduleResume(at: int) | NoAction

  /** The decision rule of the receiver's `collect` block. */
  function BootDecision(studyPaused: bool, studyPausedUntil: int, studyState: StudyState, now: int): (r: BootAction)
    ensures r.StartSampling? <==> studyState == Running && (!studyPaused || studyPausedUntil < now || studyPausedUntil == -1)
    ensures r.ScheduleResume? <==> studyState == Running && studyPaused && studyPausedUntil >= now && studyPausedUntil != -1
    ensures r.ScheduleResume? ==> r.at == studyPausedUntil
    ensures r.NoAction? <==> studyState != Running
  {
    if studyState == Running && (!studyPaused || studyPausedUntil < now || studyPausedUntil == -1) then StartSampling
    else if studyState == Running then ScheduleResume(studyPausedUntil)
    else NoAction
  }

  /**
   * One value of the combined settings flow, with the time it is handled at and what
   * `samplingManager.isRunning` answers while it is handled. The sampler owns that flag and other
   * components change it between emissions (its service binds and unbinds asynchronously, the app
   * pauses sampling), so every emission carries its own reading.
   */
  datatype Emission = Emission(studyPaused: bool, studyPausedUntil: int, studyState: StudyState, now: int, samplingRunning: bool)

  /** What handling one emission did. */
  datatype Effect = SamplingStarted | SamplingAlreadyRunning | ResumeAlarmScheduled(at: int) | NothingDone

  /** The received intent; its action may be missing. */
  datatype Intent = Intent(action: Option<string>)

  /** How `onReceive` ends: a missing context, the crash of `intent!!`, another action, or the collected emissions. */
  datatype Outcome = NullContext | NullIntentCrash | InvalidAction | Collected(effects: seq<Effect>)

  /** `startSampling` while the sampler reports `running`: it starts only a stopped sampler. */
  function StartSamplingEffect(running: bool): (r: Effect)
    ensures r.SamplingStarted? || r.SamplingAlreadyRunning?
    ensures r == SamplingStarted <==> !running
  {
    if !running then SamplingStarted else SamplingAlreadyRunning
  }

  /** Handling one emission: the decision, then its dispatch. */
  function Handle(e: Emission): Effect
  {
    match BootDecision(e.studyPaused, e.studyPausedUntil, e.studyState, e.now)
    case StartSampling => StartSamplingEffect(e.samplingRunning)
    case ScheduleResume(at) => ResumeAlarmScheduled(at)
    case NoAction => NothingDone
  }

  /** The emissions handled in order, each on its own reading of the sampler's state. */
  function Collect(emissions: seq<Emission>): (r: seq<Effect>)
    ensures |r| == |emissions|
    decreases |emissions|
  {
    if |emissions| == 0 then []
    else [Handle(emissions[0])] + Collect(emissions[1..])
  }

  /** `onReceive` */
  function OnReceive(hasContext: bool, intent: Option<Intent>, emissions: seq<Emission>): Outcome
  {
    if !hasContext then NullContext
    else if intent.None? then NullIntentCrash
    else if intent.value.action != Some(BootCompletedAction) then InvalidAction
    else Collected(Collect(emissions))
  }

  /** Only a boot-completed intent with a context leads to any handling. */
  lemma OnlyBootCompletedIsHandled(hasContext: bool, intent: Option<Intent>, emissions: seq<Emission>)
    ensures OnReceive(hasContext, intent, emissions).Collected?
            <==> hasContext && intent.Some? && intent.value.action == Some(BootCompletedAction)
  {
  }

  /** The number of `SamplingStarted` effects. */
  function Starts(effects: seq<Effect>): nat
  {
    if |effects| == 0 then 0 else (if effects[0] == SamplingStarted then 1 else 0) + Starts(effects[1..])
  }

  /** Whether an emission lets the study run and finds the sampler stopped. */
  predicate StartsOn(e: Emission)
  {
    BootDecision(e.studyPaused, e.studyPausedUntil, e.studyState, e.now).StartSampling? && !e.samplingRunning
  }

  /** The number of emissions on which sampling is started. */
  function StartingEmissions(emissions: seq<Emission>): nat
  {
    if |emissions| == 0 then 0 else (if StartsOn(emissions[0]) then 1 else 0) + StartingEmissions(emissions[1..])
  }

  /**
   * Sampling is started on exactly the emissions whose decision is to start and whose reading
   * finds the sampler stopped; it is started once per such emission, so nothing bounds the starts
   * when the sampler reports stopped again between emissions.
   */
  lemma {:induction false} StartsExactlyWhenStopped(emissions: seq<Emission>, i: int)
    requires 0 <= i < |emissions|
    ensures Collect(emissions)[i] == SamplingStarted <==> StartsOn(emissions[i])
    ensures Starts(Collect(emissions)) == StartingEmissions(emissions)
    decreases |emissions|
  {
    if i > 0 {
      StartsExactlyWhenStopped(emissions[1..], i - 1);
      assert Collect(emissions)[i] == Collect(emissions[1..])[i - 1];
    } else if |emissions| > 1 {
      StartsExactlyWhenStopped(emissions[1..], 0);
    }
    assert Collect(emissions)[1..] == Collect(emissions[1..]);
  }

  /** While every emission finds the sampler running, the receiver never starts it. */
  lemma {:induction false} NoStartWhileRunning(emissions: seq<Emission>)
    requires forall i :: 0 <= i < |emissions| ==> emissions[i].samplingRunning
    ensures Starts(Collect(emissions)) == 0
    decreases |emissions|
  {
    if |emissions| > 0 {
      NoStartWhileRunning(emissions[1..]);
      StartsExactlyWhenStopped(emissions, 0);
    }
  }

  /**
   * Each emission's effect follows the decision rule: a start (or the note that sampling already
   * runs) exactly when the study may run now, the resume alarm at the end of the pause while it is
   * paused, and nothing in any other study state.
   */
  lemma {:induction false} EffectsFollowDecision(emissions: seq<Emission>, i: int)
    requires 0 <= i < |emissions|
    ensures var e := emissions[i];
            var effect := Collect(emissions)[i];
            && ((effect.SamplingStarted? || effect.SamplingAlreadyRunning?) <==>
                  BootDecision(e.studyPaused, e.studyPausedUntil, e.studyState, e.now).StartSampling?)
            && (effect.ResumeAlarmScheduled? <==> e.studyState == Running && !BootDecision(e.studyPaused, e.studyPausedUntil, e.studyState, e.now).StartSampling?)
            && (effect.ResumeAlarmScheduled? ==> effect.at == e.studyPausedUntil)
            && (effect.NothingDone? <==> e.studyState != Running)
    decreases |emissions|
  {
    if i > 0 {
      EffectsFollowDecision(emissions[1..], i - 1);
      assert Collect(emissions)[i] == Collect(emissions[1..])[i - 1];
    }
  }
}
