/**
 * The older Java version of the LogService sampling scheduler.
 *
 * It declares a fourth state, SLEEP, and a SLEEP_MODE message code, but nothing assigns the
 * state and the message handler has no case for the code. Its onStartCommand does not start
 * sampling, and its unlock healthcheck only logs. The helpers that do not depend on the state
 * type (callbacks, sensor loops, receiver registration) are shared with the Kotlin model.
 */
module LogServiceJava {
  import K = LogService
  import opened Wrappers

  /** LogServiceState of the Java file. */
  datatype JavaState = Idle | Sleep | SamplingAfterUnlock | SamplingPeriodic

  const SleepModeMessage: int := 5

  type JavaService = K.Service<JavaState>

  /** The Kotlin state a Java state stands for; SLEEP has none. */
  function ToKotlin(st: JavaState): (r: Option<K.SamplingState>)
    ensures r.None? <==> st == Sleep
    ensures r.Some? ==> FromKotlin(r.value) == st
  {
    match st
    case Idle => Some(K.Idle)
    case Sleep => None
    case SamplingAfterUnlock => Some(K.SamplingAfterUnlock)
    case SamplingPeriodic => Some(K.SamplingPeriodic)
  }

  function FromKotlin(st: K.SamplingState): JavaState
  {
    match st
    case Idle => Idle
    case SamplingAfterUnlock => SamplingAfterUnlock
    case SamplingPeriodic => SamplingPeriodic
  }

  /** The same service with its state replaced by one of another state type. */
  function Relabel<A, B>(s: K.Service<A>, st: B): K.Service<B>
  {
    K.Service(st, s.periodicEnabled, s.pending, s.sensorListLoaded, s.sensors,
              s.receiverRegistered, s.staleReceivers, s.destroyed, s.effects)
  }

  function Lift(s: K.Service<K.SamplingState>): JavaService
  {
    Relabel(s, FromKotlin(s.state))
  }

  /** The Kotlin service a Java service other than SLEEP stands for. */
  function Lower(s: JavaService): K.Service<K.SamplingState>
    requires s.state != Sleep
  {
    Relabel(s, ToKotlin(s.state).value)
  }

  function Initial(singleton: seq<K.Sensor>): JavaService
  {
    K.Service(Idle, false, [], false, singleton, false, 0, false, [])
  }

  /** processNewState of the Java file. */
  function Transition(s: JavaService, previous: JavaState, newState: JavaState): JavaService
  {
    if previous == Idle then
      if newState == SamplingAfterUnlock then
        var s1 := K.StartSensorsSpec(K.Remove(s, K.PeriodicStart), false, false);
        K.Post(K.Remove(s1, K.LockUnlockStop), K.LockUnlockStop, K.LockUnlockSampleDuration).(state := SamplingAfterUnlock)
      else if newState == SamplingPeriodic then
        var s1 := K.StartSensorsSpec(s, true, false);
        K.Post(K.Remove(s1, K.PeriodicStop), K.PeriodicStop, K.PeriodicSamplingSampleDuration).(state := SamplingPeriodic)
      else s
    else if previous == SamplingPeriodic then
      if newState == Idle then
        var s1 := K.Remove(K.StopSensorsSpec(s, false), K.PeriodicStop);
        var s2 := if s1.periodicEnabled then K.Post(s1, K.PeriodicStart, K.PeriodicSamplingCycleDuration) else s1;
        s2.(state := Idle)
      else if newState == SamplingAfterUnlock then
        var s1 := K.StartSensorsSpec(K.StopSensorsSpec(s, false), false, false);
        K.Post(K.Remove(s1, K.LockUnlockStop), K.LockUnlockStop, K.LockUnlockSampleDuration).(state := SamplingAfterUnlock)
      else s
    else if previous == SamplingAfterUnlock then
      if newState == Idle then
        var s1 := K.StopSensorsSpec(s, false).(state := Idle);
        if s1.periodicEnabled && !K.HasCallbacks(s1.pending, K.PeriodicStart) && !K.HasCallbacks(s1.pending, K.PeriodicStop)
        then K.Post(s1, K.PeriodicStart, K.PeriodicSamplingCycleDuration)
        else s1
      else s
    else s
  }

  function SetStateSpec(s: JavaService, newState: JavaState): JavaService
  {
    Transition(s, s.state, newState)
  }

  function SetupPeriodicSamplingSpec(s: JavaService): JavaService
  {
    SetStateSpec(s.(periodicEnabled := true), SamplingPeriodic)
  }

  /** IncomingHandler.handleMessage; SLEEP_MODE and every other unknown code fall to the default. */
  function HandleMessageSpec(s: JavaService, what: int): (JavaService, bool)
  {
    if what == K.StartSensorsMessage then (K.StartSensorsSpec(s, false, true), true)
    else if what == K.StopSensorsMessage then K.StopSamplingSpec(s)
    else if what == K.ListenLockUnlockMessage then (K.ListenForLockUnlockSpec(s), true)
    else if what == K.ListenLockUnlockAndPeriodicMessage then
      (K.SetupContinuousSamplingSpec(SetupPeriodicSamplingSpec(K.ListenForLockUnlockSpec(s))), true)
    else (s, true)
  }

  function OnReceiveSpec(s: JavaService, action: K.ScreenAction): JavaService
  {
    if action == K.ScreenOff then K.Emit(s, K.HideInteractionWidget)
    else K.Emit(SetStateSpec(K.Emit(s, K.ShowInteractionWidget), SamplingAfterUnlock), K.RunHealthcheck)
  }

  function RunPendingSpec(s: JavaService, i: nat): JavaService
    requires i < |s.pending|
  {
    var s1 := s.(pending := K.Without(s.pending, i));
    match s.pending[i].task
    case PeriodicStart => SetStateSpec(s1, SamplingPeriodic)
    case PeriodicStop => SetStateSpec(s1, Idle)
    case LockUnlockStop => SetStateSpec(s1, Idle)
  }

  /** The state never is SLEEP, and the Kotlin invariant holds of the corresponding Kotlin state. */
  predicate Inv(s: JavaService)
  {
    s.state != Sleep && K.Inv(Lower(s))
  }

  // ---------------------------------------------------------------- agreement with the Kotlin version

  /** For the three shared states the Java transition table is the Kotlin one. */
  lemma TransitionAgrees(s: K.Service<K.SamplingState>, previous: K.SamplingState, newState: K.SamplingState)
    ensures Transition(Lift(s), FromKotlin(previous), FromKotlin(newState)) == Lift(K.Transition(s, previous, newState))
  {
    match previous
    case Idle => TransitionFromIdleAgrees(s, newState);
    case SamplingPeriodic => TransitionFromPeriodicAgrees(s, newState);
    case SamplingAfterUnlock => TransitionFromUnlockAgrees(s, newState);
  }

  lemma TransitionFromIdleAgrees(s: K.Service<K.SamplingState>, newState: K.SamplingState)
    ensures Transition(Lift(s), Idle, FromKotlin(newState)) == Lift(K.Transition(s, K.Idle, newState))
  {
  }

  lemma TransitionFromPeriodicAgrees(s: K.Service<K.SamplingState>, newState: K.SamplingState)
    ensures Transition(Lift(s), SamplingPeriodic, FromKotlin(newState)) == Lift(K.Transition(s, K.SamplingPeriodic, newState))
  {
    if newState == K.Idle {
      PeriodicToIdleAgrees(s);
    }
  }

  lemma PeriodicToIdleAgrees(s: K.Service<K.SamplingState>)
    ensures Transition(Lift(s), SamplingPeriodic, Idle) == Lift(K.Transition(s, K.SamplingPeriodic, K.Idle))
  {
  }

  lemma TransitionFromUnlockAgrees(s: K.Service<K.SamplingState>, newState: K.SamplingState)
    ensures Transition(Lift(s), SamplingAfterUnlock, FromKotlin(newState)) == Lift(K.Transition(s, K.SamplingAfterUnlock, newState))
  {
  }

  /** A transition from or to SLEEP changes nothing. */
  lemma SleepTransitionsAreNoOps(s: JavaService, previous: JavaState, newState: JavaState)
    requires previous == Sleep || newState == Sleep
    ensures Transition(s, previous, newState) == s
  {
  }

  /** No transition from a state other than SLEEP ever produces SLEEP. */
  lemma SleepIsNeverAssigned(s: JavaService, previous: JavaState, newState: JavaState)
    requires s.state != Sleep
    ensures Transition(s, previous, newState).state != Sleep
  {
  }

  lemma SetStateAgrees(s: K.Service<K.SamplingState>, newState: K.SamplingState)
    ensures SetStateSpec(Lift(s), FromKotlin(newState)) == Lift(K.SetStateSpec(s, newState))
  {
    TransitionAgrees(s, s.state, newState);
  }

  /** Lift commutes with the state-independent helpers. */
  lemma LiftCommutes(s: K.Service<K.SamplingState>)
    ensures K.ListenForLockUnlockSpec(Lift(s)) == Lift(K.ListenForLockUnlockSpec(s))
    ensures K.StopSamplingSpec(Lift(s)).0 == Lift(K.StopSamplingSpec(s).0)
    ensures K.StopSamplingSpec(Lift(s)).1 == K.StopSamplingSpec(s).1
    ensures K.StartSensorsSpec(Lift(s), false, true) == Lift(K.StartSensorsSpec(s, false, true))
  {
  }

  /** Every message has the same effect as in the Kotlin version. */
  lemma HandleMessageAgrees(s: K.Service<K.SamplingState>, what: int)
    ensures HandleMessageSpec(Lift(s), what).0 == Lift(K.HandleMessageSpec(s, what).0)
    ensures HandleMessageSpec(Lift(s), what).1 == K.HandleMessageSpec(s, what).1
  {
    if what == K.ListenLockUnlockAndPeriodicMessage {
      PeriodicMessageAgrees(s);
    } else {
      LiftCommutes(s);
    }
  }

  lemma PeriodicMessageAgrees(s: K.Service<K.SamplingState>)
    ensures HandleMessageSpec(Lift(s), K.ListenLockUnlockAndPeriodicMessage).0
            == Lift(K.HandleMessageSpec(s, K.ListenLockUnlockAndPeriodicMessage).0)
    ensures HandleMessageSpec(Lift(s), K.ListenLockUnlockAndPeriodicMessage).1
  {
    var l := K.ListenForLockUnlockSpec(s);
    assert K.ListenForLockUnlockSpec(Lift(s)) == Lift(l);
    SetStateAgrees(l.(periodicEnabled := true), K.SamplingPeriodic);
    LiftCommutes(K.SetupPeriodicSamplingSpec(l));
  }

  /** The lock/unlock receiver behaves as in the Kotlin version. */
  lemma OnReceiveAgrees(s: K.Service<K.SamplingState>, action: K.ScreenAction)
    ensures OnReceiveSpec(Lift(s), action) == Lift(K.OnReceiveSpec(s, action))
  {
    SetStateAgrees(K.Emit(s, K.ShowInteractionWidget), K.SamplingAfterUnlock);
  }

  /** A posted runnable has the same effect as in the Kotlin version. */
  lemma RunPendingAgrees(s: K.Service<K.SamplingState>, i: nat)
    requires i < |s.pending|
    ensures RunPendingSpec(Lift(s), i) == Lift(K.RunPendingSpec(s, i))
  {
    var s1 := s.(pending := K.Without(s.pending, i));
    SetStateAgrees(s1, match s.pending[i].task case PeriodicStart => K.SamplingPeriodic case _ => K.Idle);
  }

  lemma LowerLift(s: JavaService)
    requires s.state != Sleep
    ensures Lift(Lower(s)) == s
  {
  }

  lemma HandleMessageKeepsInv(s: JavaService, what: int)
    requires Inv(s)
    ensures Inv(HandleMessageSpec(s, what).0)
  {
    var k := Lower(s);
    LowerLift(s);
    HandleMessageAgrees(k, what);
    K.HandleMessageKeepsInv(k, what);
  }

  lemma OnReceiveKeepsInv(s: JavaService, action: K.ScreenAction)
    requires Inv(s)
    ensures Inv(OnReceiveSpec(s, action))
  {
    var k := Lower(s);
    LowerLift(s);
    OnReceiveAgrees(k, action);
    K.OnReceiveKeepsInv(k, action);
  }

  lemma RunPendingKeepsInv(s: JavaService, i: nat)
    requires Inv(s) && i < |s.pending|
    ensures Inv(RunPendingSpec(s, i))
  {
    var k := Lower(s);
    LowerLift(s);
    RunPendingAgrees(k, i);
    K.RunPendingKeepsInv(k, i);
  }

  lemma SetupPeriodicKeepsInv(s: JavaService)
    requires Inv(s)
    ensures Inv(SetupPeriodicSamplingSpec(s))
  {
    var k := Lower(s);
    LowerLift(s);
    SetStateAgrees(k.(periodicEnabled := true), K.SamplingPeriodic);
    K.SetupPeriodicKeepsInv(k);
  }

  // ---------------------------------------------------------------- the service object

  class LogService {
    var state: JavaState
    var periodicEnabled: bool
    var pending: seq<K.Posted>
    var sensorListLoaded: bool
    var sensors: seq<K.Sensor>
    var receiverRegistered: bool
    var staleReceivers: nat
    var destroyed: bool
    var effects: seq<K.Effect>

    function Model(): JavaService
      reads this
    {
      K.Service(state, periodicEnabled, pending, sensorListLoaded, sensors,
                receiverRegistered, staleReceivers, destroyed, effects)
    }

    predicate Valid()
      reads this
    {
      Inv(Model())
    }

    constructor(singleton: seq<K.Sensor>)
      ensures Model() == Initial(singleton)
      ensures Valid()
    {
      state := Idle;
      periodicEnabled := false;
      pending := [];
      sensorListLoaded := false;
      sensors := singleton;
      receiverRegistered := false;
      staleReceivers := 0;
      destroyed := false;
      effects := [];
    }

    /** onStartCommand leaves sampling to the messages of the sampling manager. */
    method OnStartCommand()
      ensures Model() == old(Model())
    {
    }

    method StartSensors(onlyPeriodic: bool, includeContinuous: bool)
      modifies this
      ensures Model() == K.StartSensorsSpec(old(Model()), onlyPeriodic, includeContinuous)
    {
      sensorListLoaded := true;
      var i := 0;
      while i < |sensors|
        invariant 0 <= i <= |sensors| == |old(sensors)|
        invariant forall j :: 0 <= j < i ==> sensors[j] == K.StartAll(old(sensors), onlyPeriodic, includeContinuous)[j]
        invariant forall j :: i <= j < |sensors| ==> sensors[j] == old(sensors)[j]
        invariant Model() == old(Model()).(sensorListLoaded := true, sensors := sensors)
      {
        if K.ShouldStart(sensors[i], onlyPeriodic, includeContinuous) {
          sensors := sensors[i := sensors[i].(running := true)];
        }
        i := i + 1;
      }
      assert sensors == K.StartAll(old(sensors), onlyPeriodic, includeContinuous);
    }

    method StopSensors(includeContinuous: bool)
      modifies this
      ensures Model() == K.StopSensorsSpec(old(Model()), includeContinuous)
    {
      if sensorListLoaded {
        var i := 0;
        while i < |sensors|
          invariant 0 <= i <= |sensors| == |old(sensors)|
          invariant forall j :: 0 <= j < i ==> sensors[j] == K.StopAll(old(sensors), includeContinuous)[j]
          invariant forall j :: i <= j < |sensors| ==> sensors[j] == old(sensors)[j]
          invariant Model() == old(Model()).(sensors := sensors)
        {
          if K.ShouldStop(sensors[i], includeContinuous) {
            sensors := sensors[i := sensors[i].(running := false)];
          }
          i := i + 1;
        }
        assert sensors == K.StopAll(old(sensors), includeContinuous);
      }
    }

    method ProcessNewState(previous: JavaState, newState: JavaState)
      modifies this
      ensures Model() == Transition(old(Model()), previous, newState)
    {
      if previous == Idle {
        if newState == SamplingAfterUnlock {
          pending := K.Cancel(pending, K.PeriodicStart);
          StartSensors(false, false);
          pending := K.Cancel(pending, K.LockUnlockStop);
          pending := pending + [K.Posted(K.LockUnlockStop, K.LockUnlockSampleDuration)];
          state := SamplingAfterUnlock;
        } else if newState == SamplingPeriodic {
          StartSensors(true, false);
          pending := K.Cancel(pending, K.PeriodicStop);
          pending := pending + [K.Posted(K.PeriodicStop, K.PeriodicSamplingSampleDuration)];
          state := SamplingPeriodic;
        }
      } else if previous == SamplingPeriodic {
        if newState == Idle {
          StopSensors(false);
          pending := K.Cancel(pending, K.PeriodicStop);
          if periodicEnabled {
            pending := pending + [K.Posted(K.PeriodicStart, K.PeriodicSamplingCycleDuration)];
          }
          state := Idle;
        } else if newState == SamplingAfterUnlock {
          StopSensors(false);
          StartSensors(false, false);
          pending := K.Cancel(pending, K.LockUnlockStop);
          pending := pending + [K.Posted(K.LockUnlockStop, K.LockUnlockSampleDuration)];
          state := SamplingAfterUnlock;
        }
      } else if previous == SamplingAfterUnlock {
        if newState == Idle {
          StopSensors(false);
          state := Idle;
          if periodicEnabled {
            if !K.HasCallbacks(pending, K.PeriodicStart) && !K.HasCallbacks(pending, K.PeriodicStop) {
              pending := pending + [K.Posted(K.PeriodicStart, K.PeriodicSamplingCycleDuration)];
            }
          }
        }
      }
    }

    method SetState(newState: JavaState)
      modifies this
      ensures Model() == SetStateSpec(old(Model()), newState)
    {
      ProcessNewState(state, newState);
    }

    method SetupPeriodicSampling()
      modifies this
      requires Valid()
      ensures Valid()
      ensures Model() == SetupPeriodicSamplingSpec(old(Model()))
    {
      SetupPeriodicKeepsInv(Model());
      periodicEnabled := true;
      SetState(SamplingPeriodic);
    }

    method StopPeriodicSampling()
      modifies this
      ensures Model() == K.StopPeriodicSamplingSpec(old(Model()))
    {
      periodicEnabled := false;
      pending := K.Cancel(pending, K.PeriodicStart);
      pending := K.Cancel(pending, K.PeriodicStop);
    }

    method ListenForLockUnlock()
      modifies this
      ensures Model() == K.ListenForLockUnlockSpec(old(Model()))
    {
      if receiverRegistered {
        staleReceivers := staleReceivers + 1;
      }
      sensorListLoaded := true;
      receiverRegistered := true;
    }

    /** Returns false when unregisterReceiver throws. */
    method StopSampling() returns (ok: bool)
      modifies this
      ensures (Model(), ok) == K.StopSamplingSpec(old(Model()))
    {
      StopSensors(true);
      StopPeriodicSampling();
      if !receiverRegistered {
        return false;
      }
      receiverRegistered := false;
      return true;
    }

    method HandleMessage(what: int) returns (ok: bool)
      modifies this
      requires Valid()
      ensures Valid()
      ensures (Model(), ok) == HandleMessageSpec(old(Model()), what)
    {
      HandleMessageKeepsInv(Model(), what);
      ok := true;
      if what == K.StartSensorsMessage {
        StartSensors(false, true);
      } else if what == K.StopSensorsMessage {
        ok := StopSampling();
      } else if what == K.ListenLockUnlockMessage {
        ListenForLockUnlock();
      } else if what == K.ListenLockUnlockAndPeriodicMessage {
        ListenForLockUnlock();
        SetupPeriodicKeepsInv(Model());
        SetupPeriodicSampling();
        StartSensors(false, true);
      }
    }

    method OnReceive(action: K.ScreenAction)
      modifies this
      requires Valid()
      ensures Valid()
      ensures Model() == OnReceiveSpec(old(Model()), action)
    {
      OnReceiveKeepsInv(Model(), action);
      if action == K.ScreenOff {
        effects := effects + [K.HideInteractionWidget];
      } else {
        effects := effects + [K.ShowInteractionWidget];
        SetState(SamplingAfterUnlock);
        effects := effects + [K.RunHealthcheck];
      }
    }

    method RunPending(i: nat)
      modifies this
      requires Valid()
      requires i < |pending|
      ensures Valid()
      ensures Model() == RunPendingSpec(old(Model()), i)
    {
      RunPendingKeepsInv(Model(), i);
      var task := pending[i].task;
      pending := K.Without(pending, i);
      match task {
        case PeriodicStart => SetState(SamplingPeriodic);
        case PeriodicStop => SetState(Idle);
        case LockUnlockStop => SetState(Idle);
      }
    }

    method OnDestroy()
      modifies this
      requires Valid()
      ensures Valid()
      ensures Model() == K.OnDestroySpec(old(Model()))
    {
      pending := K.Cancel(pending, K.PeriodicStart);
      pending := K.Cancel(pending, K.PeriodicStop);
      pending := K.Cancel(pending, K.LockUnlockStop);
      StopSensors(true);
      receiverRegistered := false;
      destroyed := true;
    }
  }
}
