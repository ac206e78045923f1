/**
 * The sampling scheduler of the app's LogService (Kotlin version).
 *
 * The service is a three-state machine (idle, sampling after an unlock, periodic sampling).
 * Its timers are runnables posted on Android handlers; here a posted runnable is a `Posted`
 * entry of the `pending` sequence, `removeCallbacks` filters the sequence, `hasCallbacks`
 * tests membership, and the handler running a due runnable is `RunPending`.
 * The sensors are the entries of the shared singleton sensor list; starting or stopping a
 * sensor sets its `running` flag.
 */
module LogService {

  /** LogServiceState */
  datatype SamplingState = Idle | SamplingAfterUnlock | SamplingPeriodic

  /** The three runnables the service posts: periodicStart, periodicStop and lockUnlockStop. */
  datatype Task = PeriodicStart | PeriodicStop | LockUnlockStop

  /** A runnable posted with `postDelayed` that has neither run nor been removed. */
  datatype Posted = Posted(task: Task, delayMs: int)

  /** What the service needs to know of a sensor of the singleton list. */
  datatype Sensor = Sensor(
    name: string,
    enabled: bool,
    available: bool,
    periodic: bool,     // availableForPeriodicSampling()
    continuous: bool,   // availableForContinuousSampling()
    running: bool)

  /** Actions on the rest of the app: starting/stopping the widget service, the healthcheck, stopSelf. */
  datatype Effect = ShowInteractionWidget | HideInteractionWidget | RunHealthcheck | StopSelf

  /** The two actions the lock/unlock receiver is registered for. */
  datatype ScreenAction = ScreenOff | UserPresent

  const PeriodicSamplingSampleDuration: int := 60 * 1000
  const PeriodicSamplingCycleDuration: int := 5 * 60 * 1000
  const LockUnlockSampleDuration: int := 60 * 1000

  const StartSensorsMessage: int := 0
  const StopSensorsMessage: int := 1
  const ListenLockUnlockMessage: int := 2
  const ListenLockUnlockAndPeriodicMessage: int := 3

  /**
   * The whole state of the service as a value. `receiverRegistered` tells whether the receiver
   * stored in `lockUnlockReceiver` is registered; `staleReceivers` counts receivers that are
   * still registered but no longer stored in that field (each call to listenForLockUnlock
   * replaces the field without unregistering the previous receiver).
   */
  datatype Service<St> = Service(
    state: St,
    periodicEnabled: bool,
    pending: seq<Posted>,
    sensorListLoaded: bool,
    sensors: seq<Sensor>,
    receiverRegistered: bool,
    staleReceivers: nat,
    destroyed: bool,
    effects: seq<Effect>)

  // ---------------------------------------------------------------- handler callbacks

  /** `removeCallbacks(t)`: every posted instance of `t` is dropped, the rest keep their order. */
  function Cancel(pending: seq<Posted>, t: Task): (r: seq<Posted>)
    ensures forall p :: p in r <==> p in pending && p.task != t
    ensures |r| <= |pending|
  {
    if pending == [] then []
    else (if pending[0].task == t then [] else [pending[0]]) + Cancel(pending[1..], t)
  }

  /** `hasCallbacks(t)` */
  predicate HasCallbacks(pending: seq<Posted>, t: Task)
  {
    exists p :: p in pending && p.task == t
  }

  /** The queue after the handler took entry `i` out to run it. */
  function Without(pending: seq<Posted>, i: nat): seq<Posted>
    requires i < |pending|
  {
    pending[..i] + pending[i + 1..]
  }

  // ---------------------------------------------------------------- sensor selection

  /** The condition under which startSensors starts a sensor. */
  predicate ShouldStart(s: Sensor, onlyPeriodic: bool, includeContinuous: bool)
  {
    s.enabled && s.available && (s.periodic || !onlyPeriodic || (s.continuous && includeContinuous))
  }

  /** The condition under which stopSensors stops a sensor. */
  predicate ShouldStop(s: Sensor, includeContinuous: bool)
  {
    s.running && ((s.continuous && includeContinuous) || !s.continuous)
  }

  function StartAll(sensors: seq<Sensor>, onlyPeriodic: bool, includeContinuous: bool): seq<Sensor>
  {
    seq(|sensors|, i requires 0 <= i < |sensors| =>
      if ShouldStart(sensors[i], onlyPeriodic, includeContinuous) then sensors[i].(running := true) else sensors[i])
  }

  function StopAll(sensors: seq<Sensor>, includeContinuous: bool): seq<Sensor>
  {
    seq(|sensors|, i requires 0 <= i < |sensors| =>
      if ShouldStop(sensors[i], includeContinuous) then sensors[i].(running := false) else sensors[i])
  }

  /** Two sensors that differ at most in whether they run. */
  predicate SameSensor(a: Sensor, b: Sensor)
  {
    a.(running := b.running) == b
  }

  // ---------------------------------------------------------------- the operations, as functions of the state

  function Initial(singleton: seq<Sensor>): Service<SamplingState>
  {
    Service(Idle, false, [], false, singleton, false, 0, false, [])
  }

  function Remove<St>(s: Service<St>, t: Task): Service<St>
  {
    s.(pending := Cancel(s.pending, t))
  }

  function Post<St>(s: Service<St>, t: Task, delayMs: int): Service<St>
  {
    s.(pending := s.pending + [Posted(t, delayMs)])
  }

  function Emit<St>(s: Service<St>, e: Effect): Service<St>
  {
    s.(effects := s.effects + [e])
  }

  /** startSensors: the sensor list is (re)loaded from the singleton, then each selected sensor is started. */
  function StartSensorsSpec<St>(s: Service<St>, onlyPeriodic: bool, includeContinuous: bool): Service<St>
  {
    s.(sensorListLoaded := true, sensors := StartAll(s.sensors, onlyPeriodic, includeContinuous))
  }

  /** stopSensors: nothing while the sensor list is still null. */
  function StopSensorsSpec<St>(s: Service<St>, includeContinuous: bool): Service<St>
  {
    if !s.sensorListLoaded then s else s.(sensors := StopAll(s.sensors, includeContinuous))
  }

  /** processNewState(previous, newState) */
  function Transition(s: Service<SamplingState>, previous: SamplingState, newState: SamplingState): Service<SamplingState>
  {
    match (previous, newState)
    case (Idle, SamplingAfterUnlock) =>
      var s1 := StartSensorsSpec(Remove(s, PeriodicStart), false, false);
      Post(Remove(s1, LockUnlockStop), LockUnlockStop, LockUnlockSampleDuration).(state := SamplingAfterUnlock)
    case (Idle, SamplingPeriodic) =>
      var s1 := StartSensorsSpec(s, true, false);
      Post(Remove(s1, PeriodicStop), PeriodicStop, PeriodicSamplingSampleDuration).(state := SamplingPeriodic)
    case (SamplingPeriodic, Idle) =>
      var s1 := Remove(StopSensorsSpec(s, false), PeriodicStop);
      var s2 := if s1.periodicEnabled then Post(s1, PeriodicStart, PeriodicSamplingCycleDuration) else s1;
      s2.(state := Idle)
    case (SamplingPeriodic, SamplingAfterUnlock) =>
      var s1 := StartSensorsSpec(StopSensorsSpec(s, false), false, false);
      Post(Remove(s1, LockUnlockStop), LockUnlockStop, LockUnlockSampleDuration).(state := SamplingAfterUnlock)
    case (SamplingAfterUnlock, Idle) =>
      var s1 := StopSensorsSpec(s, false).(state := Idle);
      if s1.periodicEnabled && !HasCallbacks(s1.pending, PeriodicStart) && !HasCallbacks(s1.pending, PeriodicStop)
      then Post(s1, PeriodicStart, PeriodicSamplingCycleDuration)
      else s1
    case _ => s
  }

  /** setState(newState) */
  function SetStateSpec(s: Service<SamplingState>, newState: SamplingState): Service<SamplingState>
  {
    Transition(s, s.state, newState)
  }

  /** setupPeriodicSampling: enable, then run periodicStartRunnable at once. */
  function SetupPeriodicSamplingSpec(s: Service<SamplingState>): Service<SamplingState>
  {
    SetStateSpec(s.(periodicEnabled := true), SamplingPeriodic)
  }

  /** stopPeriodicSampling */
  function StopPeriodicSamplingSpec<St>(s: Service<St>): Service<St>
  {
    Remove(Remove(s.(periodicEnabled := false), PeriodicStart), PeriodicStop)
  }

  /** setupContiunousSampling */
  function SetupContinuousSamplingSpec<St>(s: Service<St>): Service<St>
  {
    StartSensorsSpec(s, false, true)
  }

  /** listenForLockUnlock: a fresh receiver replaces the stored one, the sensor list is loaded, the receiver is registered. */
  function ListenForLockUnlockSpec<St>(s: Service<St>): Service<St>
  {
    s.(sensorListLoaded := true,
       staleReceivers := if s.receiverRegistered then s.staleReceivers + 1 else s.staleReceivers,
       receiverRegistered := true)
  }

  /** stopListeningForLockUnlock: unregisterReceiver throws when the stored receiver is not registered (second component false). */
  function StopListeningSpec<St>(s: Service<St>): (Service<St>, bool)
  {
    if s.receiverRegistered then (s.(receiverRegistered := false), true) else (s, false)
  }

  /** stopSampling; the flag is false when unregistering the receiver threw. */
  function StopSamplingSpec<St>(s: Service<St>): (Service<St>, bool)
  {
    StopListeningSpec(StopPeriodicSamplingSpec(StopSensorsSpec(s, true)))
  }

  /** IncomingHandler.handleMessage; the flag is false when the handler threw. */
  function HandleMessageSpec(s: Service<SamplingState>, what: int): (Service<SamplingState>, bool)
  {
    if what == StartSensorsMessage then (StartSensorsSpec(s, false, true), true)
    else if what == StopSensorsMessage then StopSamplingSpec(s)
    else if what == ListenLockUnlockMessage then (ListenForLockUnlockSpec(s), true)
    else if what == ListenLockUnlockAndPeriodicMessage then
      (SetupContinuousSamplingSpec(SetupPeriodicSamplingSpec(ListenForLockUnlockSpec(s))), true)
    else (s, true)
  }

  /** The lock/unlock receiver's onReceive. */
  function OnReceiveSpec(s: Service<SamplingState>, action: ScreenAction): Service<SamplingState>
  {
    if action == ScreenOff then Emit(s, HideInteractionWidget)
    else Emit(SetStateSpec(Emit(s, ShowInteractionWidget), SamplingAfterUnlock), RunHealthcheck)
  }

  /** A handler runs the posted runnable at position `i`. */
  function RunPendingSpec(s: Service<SamplingState>, i: nat): Service<SamplingState>
    requires i < |s.pending|
  {
    var s1 := s.(pending := Without(s.pending, i));
    match s.pending[i].task
    case PeriodicStart => SetStateSpec(s1, SamplingPeriodic)
    case PeriodicStop => SetStateSpec(s1, Idle)
    case LockUnlockStop => SetStateSpec(s1, Idle)
  }

  /** onStartCommand, given the healthcheck's verdict on the critical permissions. */
  function OnStartCommandSpec(s: Service<SamplingState>, allCriticalPermissionsGranted: bool): Service<SamplingState>
  {
    var s1 := Emit(s, RunHealthcheck);
    if allCriticalPermissionsGranted then
      SetupContinuousSamplingSpec(SetupPeriodicSamplingSpec(ListenForLockUnlockSpec(s1)))
    else Emit(s1, StopSelf)
  }

  /** onDestroy; unregistering a receiver that is not registered is caught there. */
  function OnDestroySpec<St>(s: Service<St>): Service<St>
  {
    var s1 := StopSensorsSpec(Remove(Remove(Remove(s, PeriodicStart), PeriodicStop), LockUnlockStop), true);
    s1.(receiverRegistered := false, destroyed := true)
  }

  // ---------------------------------------------------------------- the invariant

  /**
   * A periodic start is pending only while periodic sampling is enabled, and a live service
   * that samples after an unlock always has its stop guard pending.
   */
  predicate Inv(s: Service<SamplingState>)
  {
    (HasCallbacks(s.pending, PeriodicStart) ==> s.periodicEnabled)
    && (!s.destroyed && s.state == SamplingAfterUnlock ==> HasCallbacks(s.pending, LockUnlockStop))
  }

  lemma CancelOther(pending: seq<Posted>, t: Task, u: Task)
    requires t != u
    ensures HasCallbacks(Cancel(pending, t), u) == HasCallbacks(pending, u)
  {
    if HasCallbacks(pending, u) {
      var p :| p in pending && p.task == u;
      assert p in Cancel(pending, t);
    }
  }

  lemma WithoutOther(pending: seq<Posted>, i: nat, u: Task)
    requires i < |pending| && pending[i].task != u
    ensures HasCallbacks(Without(pending, i), u) == HasCallbacks(pending, u)
  {
    if HasCallbacks(pending, u) {
      var p :| p in pending && p.task == u;
      var j :| 0 <= j < |pending| && pending[j] == p;
      if j < i {
        assert Without(pending, i)[j] == p;
      } else {
        assert Without(pending, i)[j - 1] == p;
      }
    }
    if HasCallbacks(Without(pending, i), u) {
      var p :| p in Without(pending, i) && p.task == u;
      assert p in pending[..i] || p in pending[i + 1..];
    }
  }

  lemma WithoutSubset(pending: seq<Posted>, i: nat, u: Task)
    requires i < |pending|
    ensures HasCallbacks(Without(pending, i), u) ==> HasCallbacks(pending, u)
  {
    if HasCallbacks(Without(pending, i), u) {
      var p :| p in Without(pending, i) && p.task == u;
      assert p in pending[..i] || p in pending[i + 1..];
    }
  }

  lemma PostHas(pending: seq<Posted>, t: Task, d: int, u: Task)
    ensures HasCallbacks(pending + [Posted(t, d)], u) == (HasCallbacks(pending, u) || t == u)
  {
    var q := pending + [Posted(t, d)];
    assert Posted(t, d) in q;
    if HasCallbacks(q, u) {
      var p :| p in q && p.task == u;
      assert p in pending || p == Posted(t, d);
    }
    if HasCallbacks(pending, u) {
      var p :| p in pending && p.task == u;
      assert p in q;
    }
  }

  lemma TransitionKeepsInv(s: Service<SamplingState>, newState: SamplingState)
    requires Inv(s) || (newState == Idle && (HasCallbacks(s.pending, PeriodicStart) ==> s.periodicEnabled))
    ensures Inv(SetStateSpec(s, newState))
  {
    match (s.state, newState)
    case (Idle, SamplingAfterUnlock) => UnlockFromIdleKeepsInv(s);
    case (Idle, SamplingPeriodic) => PeriodicFromIdleKeepsInv(s);
    case (SamplingPeriodic, Idle) => IdleFromPeriodicKeepsInv(s);
    case (SamplingPeriodic, SamplingAfterUnlock) => UnlockFromPeriodicKeepsInv(s);
    case (SamplingAfterUnlock, Idle) => IdleFromUnlockKeepsInv(s);
    case _ =>
  }

  lemma UnlockFromIdleKeepsInv(s: Service<SamplingState>)
    requires s.state == Idle && Inv(s)
    ensures Inv(SetStateSpec(s, SamplingAfterUnlock))
  {
    var s1 := StartSensorsSpec(Remove(s, PeriodicStart), false, false);
    CancelOther(s1.pending, LockUnlockStop, PeriodicStart);
    PostHas(Cancel(s1.pending, LockUnlockStop), LockUnlockStop, LockUnlockSampleDuration, PeriodicStart);
    PostHas(Cancel(s1.pending, LockUnlockStop), LockUnlockStop, LockUnlockSampleDuration, LockUnlockStop);
  }

  lemma PeriodicFromIdleKeepsInv(s: Service<SamplingState>)
    requires s.state == Idle && Inv(s)
    ensures Inv(SetStateSpec(s, SamplingPeriodic))
  {
    CancelOther(s.pending, PeriodicStop, PeriodicStart);
    PostHas(Cancel(s.pending, PeriodicStop), PeriodicStop, PeriodicSamplingSampleDuration, PeriodicStart);
  }

  lemma IdleFromPeriodicKeepsInv(s: Service<SamplingState>)
    requires s.state == SamplingPeriodic
    requires Inv(s) || (HasCallbacks(s.pending, PeriodicStart) ==> s.periodicEnabled)
    ensures Inv(SetStateSpec(s, Idle))
  {
    var s1 := Remove(StopSensorsSpec(s, false), PeriodicStop);
    CancelOther(s.pending, PeriodicStop, PeriodicStart);
    PostHas(s1.pending, PeriodicStart, PeriodicSamplingCycleDuration, PeriodicStart);
  }

  lemma UnlockFromPeriodicKeepsInv(s: Service<SamplingState>)
    requires s.state == SamplingPeriodic && Inv(s)
    ensures Inv(SetStateSpec(s, SamplingAfterUnlock))
  {
    var s1 := StartSensorsSpec(StopSensorsSpec(s, false), false, false);
    CancelOther(s1.pending, LockUnlockStop, PeriodicStart);
    PostHas(Cancel(s1.pending, LockUnlockStop), LockUnlockStop, LockUnlockSampleDuration, PeriodicStart);
    PostHas(Cancel(s1.pending, LockUnlockStop), LockUnlockStop, LockUnlockSampleDuration, LockUnlockStop);
  }

  lemma IdleFromUnlockKeepsInv(s: Service<SamplingState>)
    requires s.state == SamplingAfterUnlock
    requires Inv(s) || (HasCallbacks(s.pending, PeriodicStart) ==> s.periodicEnabled)
    ensures Inv(SetStateSpec(s, Idle))
  {
    var s1 := StopSensorsSpec(s, false).(state := Idle);
    PostHas(s1.pending, PeriodicStart, PeriodicSamplingCycleDuration, PeriodicStart);
  }

  lemma RunPendingKeepsInv(s: Service<SamplingState>, i: nat)
    requires Inv(s) && i < |s.pending|
    ensures Inv(RunPendingSpec(s, i))
  {
    var s1 := s.(pending := Without(s.pending, i));
    WithoutSubset(s.pending, i, PeriodicStart);
    if s.pending[i].task == PeriodicStart {
      WithoutOther(s.pending, i, LockUnlockStop);
    }
    TransitionKeepsInv(s1, match s.pending[i].task case PeriodicStart => SamplingPeriodic case _ => Idle);
  }

  lemma SetupPeriodicKeepsInv(s: Service<SamplingState>)
    requires Inv(s)
    ensures Inv(SetupPeriodicSamplingSpec(s))
  {
    TransitionKeepsInv(s.(periodicEnabled := true), SamplingPeriodic);
  }

  lemma StopPeriodicKeepsInv(s: Service<SamplingState>)
    requires Inv(s)
    ensures Inv(StopPeriodicSamplingSpec(s))
  {
    var s1 := Remove(s.(periodicEnabled := false), PeriodicStart);
    CancelOther(s.pending, PeriodicStart, LockUnlockStop);
    CancelOther(s1.pending, PeriodicStop, LockUnlockStop);
    CancelOther(s1.pending, PeriodicStop, PeriodicStart);
  }

  lemma HandleMessageKeepsInv(s: Service<SamplingState>, what: int)
    requires Inv(s)
    ensures Inv(HandleMessageSpec(s, what).0)
  {
    if what == StopSensorsMessage {
      StopPeriodicKeepsInv(StopSensorsSpec(s, true));
    } else if what == ListenLockUnlockAndPeriodicMessage {
      SetupPeriodicKeepsInv(ListenForLockUnlockSpec(s));
    }
  }

  lemma OnReceiveKeepsInv(s: Service<SamplingState>, action: ScreenAction)
    requires Inv(s)
    ensures Inv(OnReceiveSpec(s, action))
  {
    if action == UserPresent {
      TransitionKeepsInv(Emit(s, ShowInteractionWidget), SamplingAfterUnlock);
    }
  }

  lemma OnStartCommandKeepsInv(s: Service<SamplingState>, granted: bool)
    requires Inv(s)
    ensures Inv(OnStartCommandSpec(s, granted))
  {
    if granted {
      SetupPeriodicKeepsInv(ListenForLockUnlockSpec(Emit(s, RunHealthcheck)));
    }
  }

  // ---------------------------------------------------------------- the transition table

  /** Idle + unlock: the pending periodic start is cancelled, non-continuous selection starts, the guard is armed for 60 s. */
  lemma UnlockWhileIdle(s: Service<SamplingState>)
    requires s.state == Idle
    ensures var r := SetStateSpec(s, SamplingAfterUnlock);
      && r.state == SamplingAfterUnlock
      && !HasCallbacks(r.pending, PeriodicStart)
      && (forall p :: p in r.pending && p.task == LockUnlockStop ==> p.delayMs == LockUnlockSampleDuration)
      && HasCallbacks(r.pending, LockUnlockStop)
      && (forall p: Posted :: p.task == PeriodicStop ==> (p in r.pending <==> p in s.pending))
      && r.sensorListLoaded && |r.sensors| == |s.sensors|
      && (forall i :: 0 <= i < |s.sensors| ==>
            SameSensor(r.sensors[i], s.sensors[i])
            && (r.sensors[i].running <==> s.sensors[i].running || ShouldStart(s.sensors[i], false, false)))
      && r.periodicEnabled == s.periodicEnabled
  {
    var r := SetStateSpec(s, SamplingAfterUnlock);
    assert Posted(LockUnlockStop, LockUnlockSampleDuration) in r.pending;
  }

  /** Idle + periodic tick: periodic-capable sensors start, the stop runnable is armed for 60 s. */
  lemma PeriodicTickWhileIdle(s: Service<SamplingState>)
    requires s.state == Idle
    ensures var r := SetStateSpec(s, SamplingPeriodic);
      && r.state == SamplingPeriodic
      && HasCallbacks(r.pending, PeriodicStop)
      && (forall p :: p in r.pending && p.task == PeriodicStop ==> p.delayMs == PeriodicSamplingSampleDuration)
      && (forall p: Posted :: p.task != PeriodicStop ==> (p in r.pending <==> p in s.pending))
      && |r.sensors| == |s.sensors|
      && (forall i :: 0 <= i < |s.sensors| ==>
            SameSensor(r.sensors[i], s.sensors[i])
            && (r.sensors[i].running <==> s.sensors[i].running || ShouldStart(s.sensors[i], true, false)))
  {
    var r := SetStateSpec(s, SamplingPeriodic);
    assert Posted(PeriodicStop, PeriodicSamplingSampleDuration) in r.pending;
  }

  /** Periodic sampling + stop: back to idle, the next periodic start is armed for 5 min exactly when periodic sampling is enabled. */
  lemma StopWhilePeriodic(s: Service<SamplingState>)
    requires Inv(s) && s.state == SamplingPeriodic
    ensures var r := SetStateSpec(s, Idle);
      && r.state == Idle
      && !HasCallbacks(r.pending, PeriodicStop)
      && (HasCallbacks(r.pending, PeriodicStart) <==> s.periodicEnabled)
      && (s.periodicEnabled ==> Posted(PeriodicStart, PeriodicSamplingCycleDuration) in r.pending)
      && (forall p: Posted :: p.task == LockUnlockStop ==> (p in r.pending <==> p in s.pending))
      && |r.sensors| == |s.sensors|
      && (forall i :: 0 <= i < |s.sensors| ==>
            SameSensor(r.sensors[i], s.sensors[i])
            && (s.sensorListLoaded ==>
                  (r.sensors[i].running <==> s.sensors[i].running && s.sensors[i].continuous)))
  {
    var s1 := Remove(StopSensorsSpec(s, false), PeriodicStop);
    CancelOther(s.pending, PeriodicStop, PeriodicStart);
    PostHas(s1.pending, PeriodicStart, PeriodicSamplingCycleDuration, PeriodicStart);
    PostHas(s1.pending, PeriodicStart, PeriodicSamplingCycleDuration, PeriodicStop);
  }

  /** Periodic sampling + unlock: the unlock selection takes over and the periodic callbacks stay as they were. */
  lemma UnlockWhilePeriodic(s: Service<SamplingState>)
    requires s.state == SamplingPeriodic
    ensures var r := SetStateSpec(s, SamplingAfterUnlock);
      && r.state == SamplingAfterUnlock
      && HasCallbacks(r.pending, LockUnlockStop)
      && (forall p :: p in r.pending && p.task == LockUnlockStop ==> p.delayMs == LockUnlockSampleDuration)
      && (forall p: Posted :: p.task != LockUnlockStop ==> (p in r.pending <==> p in s.pending))
      && r.periodicEnabled == s.periodicEnabled
      && |r.sensors| == |s.sensors|
      && (forall i :: 0 <= i < |s.sensors| ==>
            SameSensor(r.sensors[i], s.sensors[i])
            && (s.sensorListLoaded ==>
                  (r.sensors[i].running <==>
                     (s.sensors[i].running && s.sensors[i].continuous) || ShouldStart(s.sensors[i], false, false))))
  {
    var r := SetStateSpec(s, SamplingAfterUnlock);
    assert Posted(LockUnlockStop, LockUnlockSampleDuration) in r.pending;
  }

  /** Unlock sampling + periodic tick: ignored. */
  lemma PeriodicTickWhileUnlocked(s: Service<SamplingState>)
    requires s.state == SamplingAfterUnlock
    ensures SetStateSpec(s, SamplingPeriodic) == s
  {
  }

  /**
   * Unlock sampling + guard expiry: back to idle; a periodic start is pending afterwards exactly
   * when one was pending before, or periodic sampling is enabled and no periodic stop is pending.
   */
  lemma GuardExpiryWhileUnlocked(s: Service<SamplingState>)
    requires s.state == SamplingAfterUnlock
    ensures var r := SetStateSpec(s, Idle);
      && r.state == Idle
      && (HasCallbacks(r.pending, PeriodicStart) <==>
            HasCallbacks(s.pending, PeriodicStart)
            || (s.periodicEnabled && !HasCallbacks(s.pending, PeriodicStop)))
      && (forall p: Posted :: p.task != PeriodicStart ==> (p in r.pending <==> p in s.pending))
      && |r.sensors| == |s.sensors|
      && (forall i :: 0 <= i < |s.sensors| ==>
            SameSensor(r.sensors[i], s.sensors[i])
            && (s.sensorListLoaded ==>
                  (r.sensors[i].running <==> s.sensors[i].running && s.sensors[i].continuous)))
  {
    var s1 := StopSensorsSpec(s, false).(state := Idle);
    PostHas(s1.pending, PeriodicStart, PeriodicSamplingCycleDuration, PeriodicStart);
  }

  /** A state asked to become itself changes nothing. */
  lemma SameStateIsNoOp(s: Service<SamplingState>, st: SamplingState)
    requires s.state == st
    ensures SetStateSpec(s, st) == s
  {
  }

  /** startSensors starts exactly the sensors that meet the start condition and changes nothing else about them. */
  lemma StartSensorsSelects<St>(s: Service<St>, onlyPeriodic: bool, includeContinuous: bool)
    ensures var r := StartSensorsSpec(s, onlyPeriodic, includeContinuous);
      && r.sensorListLoaded && |r.sensors| == |s.sensors|
      && (forall i :: 0 <= i < |s.sensors| ==>
            SameSensor(r.sensors[i], s.sensors[i])
            && (r.sensors[i].running <==> s.sensors[i].running || ShouldStart(s.sensors[i], onlyPeriodic, includeContinuous)))
      && r.(sensors := s.sensors, sensorListLoaded := s.sensorListLoaded) == s
  {
  }

  /** stopSensors stops exactly the running sensors that are non-continuous, or continuous when asked to; nothing while the list is null. */
  lemma StopSensorsSelects<St>(s: Service<St>, includeContinuous: bool)
    ensures var r := StopSensorsSpec(s, includeContinuous);
      && (!s.sensorListLoaded ==> r == s)
      && |r.sensors| == |s.sensors|
      && (forall i :: 0 <= i < |s.sensors| ==>
            SameSensor(r.sensors[i], s.sensors[i])
            && (s.sensorListLoaded ==>
                  (r.sensors[i].running <==>
                     s.sensors[i].running && s.sensors[i].continuous && !includeContinuous)))
      && r.(sensors := s.sensors) == s
  {
  }

  /** stopSampling stops every sensor, disables periodic sampling and removes its callbacks, and unregisters the receiver. */
  lemma StopSamplingEffect<St>(s: Service<St>)
    requires s.sensorListLoaded
    ensures var (r, ok) := StopSamplingSpec(s);
      && ok == s.receiverRegistered
      && !r.receiverRegistered
      && !r.periodicEnabled
      && !HasCallbacks(r.pending, PeriodicStart) && !HasCallbacks(r.pending, PeriodicStop)
      && (forall p: Posted :: p.task == LockUnlockStop ==> (p in r.pending <==> p in s.pending))
      && (forall i :: 0 <= i < |r.sensors| ==> !r.sensors[i].running)
      && r.state == s.state
  {
    var s1 := Remove(StopSensorsSpec(s, true).(periodicEnabled := false), PeriodicStart);
    CancelOther(s1.pending, PeriodicStop, PeriodicStart);
  }

  /**
   * Stopping the sampling during a periodic window and setting it up again leaves the service in
   * periodic sampling, enabled, with neither a periodic start nor a periodic stop pending: the
   * periodic cycle stays stalled until an unlock ends an unlock window.
   */
  lemma StopThenSetupStallsPeriodicCycle(s: Service<SamplingState>)
    requires s.state == SamplingPeriodic
    ensures var r := SetupPeriodicSamplingSpec(StopSamplingSpec(s).0);
      && r.state == SamplingPeriodic && r.periodicEnabled
      && !HasCallbacks(r.pending, PeriodicStart) && !HasCallbacks(r.pending, PeriodicStop)
  {
    var s1 := Remove(StopSensorsSpec(s, true).(periodicEnabled := false), PeriodicStart);
    CancelOther(s1.pending, PeriodicStop, PeriodicStart);
  }

  /** The stalled cycle resumes once an unlock window ends: the guard expiry arms a periodic start. */
  lemma UnlockRestartsStalledCycle(s: Service<SamplingState>)
    requires s.state == SamplingPeriodic && s.periodicEnabled
    requires !HasCallbacks(s.pending, PeriodicStart) && !HasCallbacks(s.pending, PeriodicStop)
    ensures var r := SetStateSpec(SetStateSpec(s, SamplingAfterUnlock), Idle);
      r.state == Idle && Posted(PeriodicStart, PeriodicSamplingCycleDuration) in r.pending
  {
    var u := SetStateSpec(s, SamplingAfterUnlock);
    var s1 := StartSensorsSpec(StopSensorsSpec(s, false), false, false);
    CancelOther(s1.pending, LockUnlockStop, PeriodicStart);
    CancelOther(s1.pending, LockUnlockStop, PeriodicStop);
    PostHas(Cancel(s1.pending, LockUnlockStop), LockUnlockStop, LockUnlockSampleDuration, PeriodicStart);
    PostHas(Cancel(s1.pending, LockUnlockStop), LockUnlockStop, LockUnlockSampleDuration, PeriodicStop);
    assert !HasCallbacks(u.pending, PeriodicStart) && !HasCallbacks(u.pending, PeriodicStop);
  }

  /** onStartCommand without the critical permissions starts nothing and stops the service. */
  lemma StartCommandWithoutPermissions(s: Service<SamplingState>)
    ensures var r := OnStartCommandSpec(s, false);
      && r.effects == s.effects + [RunHealthcheck, StopSelf]
      && r.(effects := s.effects) == s
  {
  }

  /** The lock broadcast only hides the widget. */
  lemma ReceiverLockAction(s: Service<SamplingState>)
    ensures OnReceiveSpec(s, ScreenOff) == s.(effects := s.effects + [HideInteractionWidget])
  {
  }

  /** Starting unlock sampling never emits an effect, and the effects so far do not change what it does. */
  lemma UnlockSamplingIgnoresEffects(s: Service<SamplingState>, e: seq<Effect>)
    ensures SetStateSpec(s, SamplingAfterUnlock).effects == s.effects
    ensures SetStateSpec(s.(effects := e), SamplingAfterUnlock) == SetStateSpec(s, SamplingAfterUnlock).(effects := e)
  {
    var t := s.(effects := e);
    if s.state == Idle {
      assert StartSensorsSpec(Remove(t, PeriodicStart), false, false)
          == StartSensorsSpec(Remove(s, PeriodicStart), false, false).(effects := e);
    } else if s.state == SamplingPeriodic {
      assert StartSensorsSpec(StopSensorsSpec(t, false), false, false)
          == StartSensorsSpec(StopSensorsSpec(s, false), false, false).(effects := e);
    }
  }

  /** The unlock broadcast shows the widget, starts unlock sampling and runs the healthcheck. */
  lemma ReceiverUnlockAction(s: Service<SamplingState>)
    ensures var r := OnReceiveSpec(s, UserPresent);
      && r.effects == s.effects + [ShowInteractionWidget, RunHealthcheck]
      && r.(effects := s.effects) == SetStateSpec(s, SamplingAfterUnlock)
  {
    UnlockSamplingIgnoresEffects(s, s.effects + [ShowInteractionWidget]);
  }

  // ---------------------------------------------------------------- the service object

  class LogService {
    var state: SamplingState
    var periodicEnabled: bool
    var pending: seq<Posted>
    var sensorListLoaded: bool
    var sensors: seq<Sensor>
    var receiverRegistered: bool
    var staleReceivers: nat
    var destroyed: bool
    var effects: seq<Effect>

    function Model(): Service<SamplingState>
      reads this
    {
      Service(state, periodicEnabled, pending, sensorListLoaded, sensors,
              receiverRegistered, staleReceivers, destroyed, effects)
    }

    predicate Valid()
      reads this
    {
      Inv(Model())
    }

    constructor(singleton: seq<Sensor>)
      ensures Model() == Initial(singleton)
      ensures Valid()
    {
      state := Idle;
      periodicEnabled := false;
      pending := [];
      sensorListLoaded := false;
      sensors := singleton;
      receiverRegistered := false;
      staleReceivers := 0;
      destroyed := false;
      effects := [];
    }

    method StartSensors(onlyPeriodic: bool, includeContinuous: bool)
      modifies this
      ensures Model() == StartSensorsSpec(old(Model()), onlyPeriodic, includeContinuous)
    {
      sensorListLoaded := true;
      var i := 0;
      while i < |sensors|
        invariant 0 <= i <= |sensors| == |old(sensors)|
        invariant forall j :: 0 <= j < i ==> sensors[j] == StartAll(old(sensors), onlyPeriodic, includeContinuous)[j]
        invariant forall j :: i <= j < |sensors| ==> sensors[j] == old(sensors)[j]
        invariant Model() == old(Model()).(sensorListLoaded := true, sensors := sensors)
      {
        if ShouldStart(sensors[i], onlyPeriodic, includeContinuous) {
          sensors := sensors[i := sensors[i].(running := true)];
        }
        i := i + 1;
      }
      assert sensors == StartAll(old(sensors), onlyPeriodic, includeContinuous);
    }

    method StopSensors(includeContinuous: bool)
      modifies this
      ensures Model() == StopSensorsSpec(old(Model()), includeContinuous)
    {
      if sensorListLoaded {
        var i := 0;
        while i < |sensors|
          invariant 0 <= i <= |sensors| == |old(sensors)|
          invariant forall j :: 0 <= j < i ==> sensors[j] == StopAll(old(sensors), includeContinuous)[j]
          invariant forall j :: i <= j < |sensors| ==> sensors[j] == old(sensors)[j]
          invariant Model() == old(Model()).(sensors := sensors)
        {
          if ShouldStop(sensors[i], includeContinuous) {
            sensors := sensors[i := sensors[i].(running := false)];
          }
          i := i + 1;
        }
        assert sensors == StopAll(old(sensors), includeContinuous);
      }
    }

    method ProcessNewState(previous: SamplingState, newState: SamplingState)
      modifies this
      ensures Model() == Transition(old(Model()), previous, newState)
    {
      if previous == Idle {
        if newState == SamplingAfterUnlock {
          pending := Cancel(pending, PeriodicStart);
          StartSensors(false, false);
          pending := Cancel(pending, LockUnlockStop);
          pending := pending + [Posted(LockUnlockStop, LockUnlockSampleDuration)];
          state := SamplingAfterUnlock;
        } else if newState == SamplingPeriodic {
          StartSensors(true, false);
          pending := Cancel(pending, PeriodicStop);
          pending := pending + [Posted(PeriodicStop, PeriodicSamplingSampleDuration)];
          state := SamplingPeriodic;
        }
      } else if previous == SamplingPeriodic {
        if newState == Idle {
          StopSensors(false);
          pending := Cancel(pending, PeriodicStop);
          if periodicEnabled {
            pending := pending + [Posted(PeriodicStart, PeriodicSamplingCycleDuration)];
          }
          state := Idle;
        } else if newState == SamplingAfterUnlock {
          StopSensors(false);
          StartSensors(false, false);
          pending := Cancel(pending, LockUnlockStop);
          pending := pending + [Posted(LockUnlockStop, LockUnlockSampleDuration)];
          state := SamplingAfterUnlock;
        }
      } else {
        if newState == Idle {
          StopSensors(false);
          state := Idle;
          if periodicEnabled {
            if !HasCallbacks(pending, PeriodicStart) && !HasCallbacks(pending, PeriodicStop) {
              pending := pending + [Posted(PeriodicStart, PeriodicSamplingCycleDuration)];
            }
          }
        }
        // a periodic tick during unlock sampling is deferred; anything else is an invalid transition
      }
    }

    method SetState(newState: SamplingState)
      modifies this
      ensures Model() == SetStateSpec(old(Model()), newState)
    {
      ProcessNewState(state, newState);
    }

    method SetupPeriodicSampling()
      modifies this
      requires Valid()
      ensures Valid()
      ensures Model() == SetupPeriodicSamplingSpec(old(Model()))
    {
      SetupPeriodicKeepsInv(Model());
      periodicEnabled := true;
      SetState(SamplingPeriodic);
    }

    method StopPeriodicSampling()
      modifies this
      ensures Model() == StopPeriodicSamplingSpec(old(Model()))
    {
      periodicEnabled := false;
      pending := Cancel(pending, PeriodicStart);
      pending := Cancel(pending, PeriodicStop);
    }

    method SetupContinuousSampling()
      modifies this
      ensures Model() == SetupContinuousSamplingSpec(old(Model()))
    {
      StartSensors(false, true);
    }

    method ListenForLockUnlock()
      modifies this
      ensures Model() == ListenForLockUnlockSpec(old(Model()))
    {
      if receiverRegistered {
        staleReceivers := staleReceivers + 1;
      }
      sensorListLoaded := true;
      receiverRegistered := true;
    }

    /** Returns false when unregisterReceiver throws. */
    method StopListeningForLockUnlock() returns (ok: bool)
      modifies this
      ensures (Model(), ok) == StopListeningSpec(old(Model()))
    {
      if !receiverRegistered {
        return false;
      }
      receiverRegistered := false;
      return true;
    }

    method StopSampling() returns (ok: bool)
      modifies this
      ensures (Model(), ok) == StopSamplingSpec(old(Model()))
    {
      StopSensors(true);
      StopPeriodicSampling();
      ok := StopListeningForLockUnlock();
    }

    method HandleMessage(what: int) returns (ok: bool)
      modifies this
      requires Valid()
      ensures Valid()
      ensures (Model(), ok) == HandleMessageSpec(old(Model()), what)
    {
      HandleMessageKeepsInv(Model(), what);
      ok := true;
      if what == StartSensorsMessage {
        StartSensors(false, true);
      } else if what == StopSensorsMessage {
        ok := StopSampling();
      } else if what == ListenLockUnlockMessage {
        ListenForLockUnlock();
      } else if what == ListenLockUnlockAndPeriodicMessage {
        ListenForLockUnlock();
        SetupPeriodicKeepsInv(Model());
        SetupPeriodicSampling();
        SetupContinuousSampling();
      }
    }

    method OnReceive(action: ScreenAction)
      modifies this
      requires Valid()
      ensures Valid()
      ensures Model() == OnReceiveSpec(old(Model()), action)
    {
      OnReceiveKeepsInv(Model(), action);
      if action == ScreenOff {
        effects := effects + [HideInteractionWidget];
      } else {
        effects := effects + [ShowInteractionWidget];
        SetState(SamplingAfterUnlock);
        effects := effects + [RunHealthcheck];
      }
    }

    method RunPending(i: nat)
      modifies this
      requires Valid()
      requires i < |pending|
      ensures Valid()
      ensures Model() == RunPendingSpec(old(Model()), i)
    {
      RunPendingKeepsInv(Model(), i);
      var task := pending[i].task;
      pending := Without(pending, i);
      match task {
        case PeriodicStart => SetState(SamplingPeriodic);
        case PeriodicStop => SetState(Idle);
        case LockUnlockStop => SetState(Idle);
      }
    }

    method OnStartCommand(allCriticalPermissionsGranted: bool)
      modifies this
      requires Valid()
      ensures Valid()
      ensures Model() == OnStartCommandSpec(old(Model()), allCriticalPermissionsGranted)
    {
      OnStartCommandKeepsInv(Model(), allCriticalPermissionsGranted);
      effects := effects + [RunHealthcheck];
      if allCriticalPermissionsGranted {
        ListenForLockUnlock();
        SetupPeriodicKeepsInv(Model());
        SetupPeriodicSampling();
        SetupContinuousSampling();
      } else {
        effects := effects + [StopSelf];
      }
    }

    method OnDestroy()
      modifies this
      requires Valid()
      ensures Valid()
      ensures Model() == OnDestroySpec(old(Model()))
    {
      pending := Cancel(pending, PeriodicStart);
      pending := Cancel(pending, PeriodicStop);
      pending := Cancel(pending, LockUnlockStop);
      StopSensors(true);
      receiverRegistered := false;
      destroyed := true;
    }
  }
}
