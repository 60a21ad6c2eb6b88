/** The Custom Auto actor as a state machine: one queued event per step, worker
  * completions arriving in any order, late or cancelled. */
module CustomAutoActor {
  import opened Models
  import opened CustomAutoPolicy
  import opened CustomAutoInvariant

  /** The three generations that a worker captures when it is spawned. */
  datatype Token = Token(configuration: nat, activation: nat, connection: int)

  datatype Kind = SampleWork | TimerWork | CommandWork

  /** What a worker's closure carries: the token and target for its completion, and the
    * time a timer sleeps until. */
  datatype Work = Work(kind: Kind, token: Token, target: Option<FanMode>, until: Option<real>)

  /** The actor's fields. spawned records the work behind every serial number given
    * out so far: serial n belongs to spawned[n - 1]. */
  datatype ActorState = ActorState(
    options: Options,
    active: bool,
    available: bool,
    powered: bool,
    powerTransition: bool,
    configuration: nat,
    activation: nat,
    connection: int,
    policy: PolicyState,
    barrierRevision: Option<int>,
    barrierAt: Option<real>,
    lastSeen: Option<int>,
    workers: map<Kind, nat>,
    spawned: seq<Work>,
    stopped: bool)

  datatype Event =
    | Activate
    | Yield
    | BeginPowerOff
    | FinishPowerOff(reported: Option<bool>)
    | Reconfigure(options: Options)
    | Shutdown
    | Connection(up: bool, generation: int, seenAt: real)
    | Power(on: bool)
    | AirQuality(generation: int, revision: int, pm25: Option<int>, at: real)
    | FanObserved(generation: int, physical: bool, mode: FanMode)
    | WorkDone(kind: Kind, serial: nat, token: Token, target: Option<FanMode>, succeeded: bool, cancelled: bool)

  /** An event together with what its handler reads from the environment: the clock,
    * and whether the current sample task has finished with its completion still queued. */
  datatype Input = Input(event: Event, now: real, sampleFinished: bool)

  function Fresh(options: Options): ActorState {
    ActorState(options, false, false, false, false, 0, 0, 0, InitialState(None),
               None, None, None, map[], [], false)
  }

  predicate Usable(s: ActorState) {
    s.active && s.available && s.powered && !s.powerTransition
  }

  function CurrentToken(s: ActorState): Token {
    Token(s.configuration, s.activation, s.connection)
  }

  // ---- the actor's own helpers ----

  function Spawn(s: ActorState, kind: Kind, target: Option<FanMode>, until: Option<real>): ActorState {
    if kind in s.workers then s
    else s.(spawned := s.spawned + [Work(kind, CurrentToken(s), target, until)],
            workers := s.workers[kind := |s.spawned| + 1])
  }

  function Invalidate(s: ActorState, at: real): ActorState {
    s.(activation := s.activation + 1,
       barrierRevision := s.lastSeen,
       barrierAt := Some(if s.barrierAt.None? then at else Max(s.barrierAt.value, at)),
       workers := map[],
       policy := InitialState(None))
  }

  function RequestSample(s: ActorState, finished: bool): ActorState {
    if SampleWork in s.workers && !finished then s
    else Spawn(s.(workers := s.workers - {SampleWork}), SampleWork, None, None)
  }

  function RequestFresh(s: ActorState, finished: bool): ActorState {
    if Usable(s) then RequestSample(s, finished) else s
  }

  function ScheduleTarget(s: ActorState, target: Option<FanMode>): ActorState {
    if target.Some? && !s.powerTransition then Spawn(s, CommandWork, target, None) else s
  }

  function SampleIfAsked(s: ActorState, asked: bool, finished: bool): ActorState {
    if asked then RequestSample(s, finished) else s
  }

  function TimerIfNeeded(s: ActorState, boundary: Option<real>): ActorState {
    if boundary.Some? then Spawn(s, TimerWork, None, boundary) else s
  }

  /** Adopts the policy's new state and carries out what it asks for: the old timer
    * goes, then come the command, the sample and the next timer. */
  function Adopt(s: ActorState, r: PolicyResult, finished: bool): ActorState {
    var s0 := s.(policy := r.state, workers := s.workers - {TimerWork});
    TimerIfNeeded(SampleIfAsked(ScheduleTarget(s0, r.target), r.requestSample, finished), r.nextBoundaryAt)
  }

  // ---- event handlers ----

  predicate IsControl(e: Event) {
    e.Activate? || e.Yield? || e.BeginPowerOff? || e.FinishPowerOff? || e.Reconfigure? || e.Shutdown?
  }

  function OnControl(s: ActorState, e: Event, now: real, finished: bool): ActorState
    requires IsControl(e)
  {
    match e
    case Activate => RequestFresh(Invalidate(s.(active := true, powerTransition := false), now), finished)
    case Yield => Invalidate(s.(active := false, powerTransition := false), now)
    case BeginPowerOff => Invalidate(s.(powerTransition := true), now)
    case FinishPowerOff(reported) =>
      RequestFresh(Invalidate(s.(powerTransition := false, powered := reported.GetOr(false)), now), finished)
    case Reconfigure(options) =>
      RequestFresh(Invalidate(s.(configuration := s.configuration + 1, options := options), now), finished)
    case Shutdown => Invalidate(s.(active := false), now).(stopped := true)
  }

  function OnPower(s: ActorState, on: bool, now: real, finished: bool): ActorState {
    if on == s.powered then s else RequestFresh(Invalidate(s.(powered := on), now), finished)
  }

  function OnConnection(s: ActorState, e: Event, finished: bool): ActorState
    requires e.Connection?
  {
    if e.generation < s.connection then s
    else if e.generation != s.connection || !e.up || !s.available then
      var s1 := s.(lastSeen := if e.generation != s.connection then None else s.lastSeen,
                   connection := e.generation, available := e.up);
      RequestFresh(Invalidate(s1, e.seenAt), finished)
    else s
  }

  /** The checks an air-quality observation passes before the policy evaluates it. */
  predicate ReachesPolicy(s: ActorState, e: Event) {
    && e.AirQuality?
    && e.generation == s.connection
    && (s.lastSeen.Some? ==> e.revision > s.lastSeen.value)
    && Usable(s)
    && (s.barrierRevision.Some? ==> e.revision > s.barrierRevision.value)
    && (s.barrierAt.Some? ==> e.at >= s.barrierAt.value)
  }

  function OnAirQuality(s: ActorState, e: Event, finished: bool): ActorState
    requires e.AirQuality?
  {
    if e.generation != s.connection || (s.lastSeen.Some? && e.revision <= s.lastSeen.value) then s
    else
      var s1 := s.(lastSeen := Some(e.revision));
      if !ReachesPolicy(s, e) then s1
      else
        var r := EvaluateObservation(s.policy, s.options, e.pm25, e.revision, e.at);
        if r.state == s.policy then s1 else Adopt(s1, r, finished)
  }

  function OnFan(s: ActorState, e: Event, now: real, finished: bool): ActorState
    requires e.FanObserved?
  {
    if e.generation != s.connection || !s.active || !e.physical then s
    else if e.mode == Auto then RequestFresh(Invalidate(s, now), finished)
    else Invalidate(s.(active := false), now)
  }

  function OnWorkDone(s: ActorState, e: Event, now: real, finished: bool): ActorState
    requires e.WorkDone?
  {
    if e.kind !in s.workers || s.workers[e.kind] != e.serial then s
    else
      var s1 := s.(workers := s.workers - {e.kind});
      if e.cancelled || e.token != CurrentToken(s) then s1
      else
        match e.kind
        case TimerWork => Adopt(s1, EvaluateBoundary(s.policy, s.options, now), finished)
        case SampleWork => s1
        case CommandWork =>
          if e.target != s.policy.pendingTarget then
            if Usable(s) then ScheduleTarget(s1, s.policy.pendingTarget) else s1
          else if e.target.Some? && e.succeeded then Confirmed(s1, e.target.value, now, finished)
          else s1.(policy := MarkFailed(s.policy))
  }

  /** A confirmed command: promote it, reconcile the deferred reading, then fire the
    * timers that matured meanwhile. */
  function Confirmed(s: ActorState, mode: FanMode, now: real, finished: bool): ActorState {
    var c := ConfirmPending(s.policy, mode);
    if c.Err? then s
    else
      var s1 := Adopt(s, ReconcileDeferred(c.value, s.options), finished);
      Adopt(s1, EvaluateBoundary(s1.policy, s.options, now), finished)
  }

  function Step(s: ActorState, input: Input): ActorState {
    var now, finished := input.now, input.sampleFinished;
    if s.stopped then s
    else
      match input.event
      case Connection(_, _, _) => OnConnection(s, input.event, finished)
      case Power(on) => OnPower(s, on, now, finished)
      case AirQuality(_, _, _, _) => OnAirQuality(s, input.event, finished)
      case FanObserved(_, _, _) => OnFan(s, input.event, now, finished)
      case WorkDone(_, _, _, _, _, _) => OnWorkDone(s, input.event, now, finished)
      case _ => OnControl(s, input.event, now, finished)
  }

  function Run(s: ActorState, inputs: seq<Input>): ActorState {
    if inputs == [] then s else Step(Run(s, inputs[..|inputs| - 1]), inputs[|inputs| - 1])
  }

  // ---- the invariant ----

  predicate SameWork(w: Work, e: Event)
    requires e.WorkDone?
  {
    w.kind == e.kind && w.token == e.token && w.target == e.target
  }

  /** A completion is genuine when it carries what the worker of its serial captured. */
  predicate Genuine(s: ActorState, e: Event) {
    e.WorkDone? ==> 1 <= e.serial <= |s.spawned| && SameWork(s.spawned[e.serial - 1], e)
  }

  predicate WorkersCurrent(s: ActorState) {
    forall k | k in s.workers ::
      && 1 <= s.workers[k] <= |s.spawned|
      && s.spawned[s.workers[k] - 1].kind == k
      && s.spawned[s.workers[k] - 1].token == CurrentToken(s)
  }

  predicate CommandMatchesPolicy(s: ActorState) {
    && (CommandWork in s.workers <==> s.policy.pendingTarget.Some?)
    && (CommandWork in s.workers && 1 <= s.workers[CommandWork] <= |s.spawned| ==>
          s.spawned[s.workers[CommandWork] - 1].target == s.policy.pendingTarget)
  }

  predicate IdleWhenUnusable(s: ActorState) {
    !Usable(s) ==> s.workers == map[] && s.policy == InitialState(None)
  }

  predicate TokensBounded(s: ActorState) {
    forall i | 0 <= i < |s.spawned| :: s.spawned[i].token.activation <= s.activation
  }

  /** Every worker is the actor's own, spawned under the current generations. */
  predicate WorkersOwned(s: ActorState) {
    WorkersCurrent(s) && TokensBounded(s)
  }

  predicate Linked(s: ActorState) {
    WorkersOwned(s) && CommandMatchesPolicy(s) && IdleWhenUnusable(s)
  }

  predicate ActorInv(s: ActorState) {
    Linked(s) && Inv(s.policy)
  }

  /** The running command's own completion reports a cancellation that the actor never
    * asked for: a worker that the actor cancels is forgotten first. */
  predicate Strands(s: ActorState, e: Event) {
    && e.WorkDone? && e.kind == CommandWork && e.cancelled
    && CommandWork in s.workers && s.workers[CommandWork] == e.serial
    && !s.stopped
  }

  // ---- each helper keeps it ----

  lemma SpawnKeeps(s: ActorState, kind: Kind, target: Option<FanMode>, until: Option<real>)
    requires WorkersOwned(s) && kind !in s.workers
    ensures var t := Spawn(s, kind, target, until);
      && WorkersOwned(t)
      && t.workers == s.workers[kind := |t.spawned|]
      && t.spawned == s.spawned + [Work(kind, CurrentToken(s), target, until)]
  {
  }

  lemma InvalidateKeeps(s: ActorState, at: real)
    requires TokensBounded(s)
    ensures ActorInv(Invalidate(s, at))
  {
  }

  lemma RequestSampleKeeps(s: ActorState, finished: bool)
    requires Linked(s) && Usable(s)
    ensures var t := RequestSample(s, finished);
      Linked(t) && Usable(t) && t.policy == s.policy && (TimerWork in t.workers <==> TimerWork in s.workers)
  {
    if SampleWork !in s.workers || finished {
      SpawnKeeps(s.(workers := s.workers - {SampleWork}), SampleWork, None, None);
    }
  }

  lemma RequestFreshKeeps(s: ActorState, finished: bool)
    requires ActorInv(s)
    ensures ActorInv(RequestFresh(s, finished))
  {
    if Usable(s) {
      RequestSampleKeeps(s, finished);
    }
  }

  lemma TimerKeeps(s: ActorState, boundary: Option<real>)
    requires Linked(s) && Usable(s) && TimerWork !in s.workers
    ensures var t := TimerIfNeeded(s, boundary);
      Linked(t) && Usable(t) && t.policy == s.policy
  {
    SpawnKeeps(s, TimerWork, None, boundary);
  }

  /** A target comes exactly with the step from no command to one. */
  predicate Fits(s: ActorState, r: PolicyResult) {
    && (r.target.Some? ==> CommandWork !in s.workers && r.state.pendingTarget == r.target)
    && (r.target.None? ==> CommandMatchesPolicy(s.(policy := r.state)))
  }

  lemma ScheduleKeeps(s: ActorState, r: PolicyResult)
    requires WorkersOwned(s) && Usable(s) && Fits(s, r)
    ensures var t := ScheduleTarget(s.(policy := r.state, workers := s.workers - {TimerWork}), r.target);
      Linked(t) && Usable(t) && TimerWork !in t.workers && t.policy == r.state
  {
    var s0 := s.(policy := r.state, workers := s.workers - {TimerWork});
    if r.target.Some? {
      SpawnKeeps(s0, CommandWork, r.target, None);
    }
  }

  lemma AdoptKeeps(s: ActorState, r: PolicyResult, finished: bool)
    requires WorkersOwned(s) && Usable(s) && Fits(s, r)
    ensures Linked(Adopt(s, r, finished)) && Usable(Adopt(s, r, finished)) && Adopt(s, r, finished).policy == r.state
  {
    var s1 := ScheduleTarget(s.(policy := r.state, workers := s.workers - {TimerWork}), r.target);
    ScheduleKeeps(s, r);
    if r.requestSample {
      RequestSampleKeeps(s1, finished);
    }
    TimerKeeps(SampleIfAsked(s1, r.requestSample, finished), r.nextBoundaryAt);
  }

  /** The policy emits a target exactly when it goes from no command to one. */
  lemma ObservationTargets(s: PolicyState, o: Options, pm25: Option<int>, revision: int, at: real)
    requires Inv(s)
    ensures var r := EvaluateObservation(s, o, pm25, revision, at);
      && (r.target.Some? ==> s.pendingTarget.None? && r.state.pendingTarget == r.target)
      && (r.target.None? ==> r.state.pendingTarget == s.pendingTarget)
  {
  }

  lemma ReconcileTargets(s: PolicyState, o: Options)
    requires s.pendingTarget.None?
    ensures var r := ReconcileDeferred(s, o);
      && (r.target.Some? ==> r.state.pendingTarget == r.target)
      && (r.target.None? ==> r.state.pendingTarget.None?)
  {
  }

  lemma FiringKeeps(s: ActorState, now: real, finished: bool)
    requires WorkersOwned(s) && CommandMatchesPolicy(s) && Inv(s.policy) && Usable(s)
    ensures ActorInv(Adopt(s, EvaluateBoundary(s.policy, s.options, now), finished))
  {
    StepKeeps(s.policy, s.options, Boundary(now));
    AdoptKeeps(s, EvaluateBoundary(s.policy, s.options, now), finished);
  }

  lemma ReconcileKeeps(s: ActorState, c: PolicyState, finished: bool)
    requires WorkersOwned(s) && Usable(s) && CommandWork !in s.workers
    requires c.pendingTarget.None? && Inv(ReconcileDeferred(c, s.options).state)
    ensures ActorInv(Adopt(s, ReconcileDeferred(c, s.options), finished))
    ensures Usable(Adopt(s, ReconcileDeferred(c, s.options), finished))
  {
    ReconcileTargets(c, s.options);
    AdoptKeeps(s, ReconcileDeferred(c, s.options), finished);
  }

  lemma ConfirmedKeeps(s: ActorState, mode: FanMode, now: real, finished: bool)
    requires WorkersOwned(s) && Inv(s.policy) && Usable(s)
    requires s.policy.pendingTarget == Some(mode) && CommandWork !in s.workers
    ensures ConfirmPending(s.policy, mode).Ok?
    ensures ActorInv(Confirmed(s, mode, now, finished))
  {
    AcknowledgeKeeps(s.policy, s.options, mode);
    var c := ConfirmPending(s.policy, mode).value;
    ReconcileKeeps(s, c, finished);
    var s1 := Adopt(s, ReconcileDeferred(c, s.options), finished);
    FiringKeeps(s1, now, finished);
    assert Confirmed(s, mode, now, finished) == Adopt(s1, EvaluateBoundary(s1.policy, s.options, now), finished);
    assert s1.options == s.options;
  }

  lemma TimerDoneKeeps(s: ActorState, now: real, finished: bool)
    requires ActorInv(s) && Usable(s)
    ensures ActorInv(Adopt(s.(workers := s.workers - {TimerWork}), EvaluateBoundary(s.policy, s.options, now), finished))
  {
    FiringKeeps(s.(workers := s.workers - {TimerWork}), now, finished);
  }

  lemma FailedKeeps(s: ActorState)
    requires ActorInv(s) && s.policy.pendingTarget.Some?
    ensures ActorInv(s.(workers := s.workers - {CommandWork}, policy := MarkFailed(s.policy)))
  {
    StepKeeps(s.policy, s.options, Fail);
  }

  lemma CommandDoneKeeps(s: ActorState, mode: FanMode, succeeded: bool, now: real, finished: bool)
    requires ActorInv(s) && Usable(s) && s.policy.pendingTarget == Some(mode)
    ensures var s1 := s.(workers := s.workers - {CommandWork});
      ActorInv(if succeeded then Confirmed(s1, mode, now, finished) else s1.(policy := MarkFailed(s.policy)))
  {
    var s1 := s.(workers := s.workers - {CommandWork});
    if succeeded {
      ConfirmedKeeps(s1, mode, now, finished);
    } else {
      FailedKeeps(s);
    }
  }

  lemma TimerWorkDoneKeeps(s: ActorState, e: Event, now: real, finished: bool)
    requires ActorInv(s) && e.WorkDone? && e.kind == TimerWork && Genuine(s, e) && !e.cancelled
    requires e.kind in s.workers && s.workers[e.kind] == e.serial
    ensures ActorInv(OnWorkDone(s, e, now, finished))
  {
    var r := EvaluateBoundary(s.policy, s.options, now);
    var t := Adopt(s.(workers := s.workers - {TimerWork}), r, finished);
    assert Usable(s) && e.token == CurrentToken(s);
    TimerDoneKeeps(s, now, finished);
    assert OnWorkDone(s, e, now, finished) == t;
  }

  lemma WorkerGoes(s: ActorState, kind: Kind)
    requires ActorInv(s) && kind != CommandWork
    ensures ActorInv(s.(workers := s.workers - {kind}))
  {
  }

  lemma OtherWorkDoneKeeps(s: ActorState, e: Event, now: real, finished: bool)
    requires ActorInv(s) && e.WorkDone?
    requires e.kind == SampleWork || e.kind !in s.workers || s.workers[e.kind] != e.serial
          || (e.kind == TimerWork && e.cancelled)
    ensures ActorInv(OnWorkDone(s, e, now, finished))
  {
    if e.kind != CommandWork {
      WorkerGoes(s, e.kind);
    }
  }

  lemma CommandWorkDoneKeeps(s: ActorState, e: Event, now: real, finished: bool)
    requires ActorInv(s) && e.WorkDone? && e.kind == CommandWork && Genuine(s, e) && !e.cancelled
    requires e.kind in s.workers && s.workers[e.kind] == e.serial
    ensures ActorInv(OnWorkDone(s, e, now, finished))
  {
    assert Usable(s) && e.token == CurrentToken(s) && e.target == s.policy.pendingTarget;
    CommandDoneKeeps(s, e.target.value, e.succeeded, now, finished);
  }

  lemma WorkDoneKeeps(s: ActorState, e: Event, now: real, finished: bool)
    requires ActorInv(s) && e.WorkDone? && Genuine(s, e)
    requires !(e.kind == CommandWork && e.cancelled && e.kind in s.workers && s.workers[e.kind] == e.serial)
    ensures ActorInv(OnWorkDone(s, e, now, finished))
  {
    if e.kind == SampleWork || e.kind !in s.workers || s.workers[e.kind] != e.serial
       || (e.kind == TimerWork && e.cancelled) {
      OtherWorkDoneKeeps(s, e, now, finished);
    } else if e.kind == TimerWork {
      TimerWorkDoneKeeps(s, e, now, finished);
    } else {
      CommandWorkDoneKeeps(s, e, now, finished);
    }
  }

  lemma ReadingKeeps(s: ActorState, seen: int, r: PolicyResult, finished: bool)
    requires ActorInv(s) && Usable(s) && Fits(s, r) && Inv(r.state)
    ensures ActorInv(Adopt(s.(lastSeen := Some(seen)), r, finished))
  {
    var s1 := s.(lastSeen := Some(seen));
    AdoptKeeps(s1, r, finished);
  }

  lemma ObservationFits(s: ActorState, pm25: Option<int>, revision: int, at: real)
    requires ActorInv(s)
    ensures var r := EvaluateObservation(s.policy, s.options, pm25, revision, at);
      Fits(s, r) && Inv(r.state)
  {
    ObservationKeeps(s.policy, s.options, pm25, revision, at);
    ObservationTargets(s.policy, s.options, pm25, revision, at);
  }

  lemma SeeingKeeps(s: ActorState, revision: int)
    requires ActorInv(s)
    ensures ActorInv(s.(lastSeen := Some(revision)))
  {
  }

  lemma AirQualityKeeps(s: ActorState, e: Event, finished: bool)
    requires ActorInv(s) && e.AirQuality?
    ensures ActorInv(OnAirQuality(s, e, finished))
  {
    SeeingKeeps(s, e.revision);
    if ReachesPolicy(s, e) {
      var r := EvaluateObservation(s.policy, s.options, e.pm25, e.revision, e.at);
      ObservationFits(s, e.pm25, e.revision, e.at);
      ReadingKeeps(s, e.revision, r, finished);
      assert r.state != s.policy ==>
        OnAirQuality(s, e, finished) == Adopt(s.(lastSeen := Some(e.revision)), r, finished);
    }
  }

  lemma InvalidateAndRefresh(s: ActorState, at: real, finished: bool)
    requires TokensBounded(s)
    ensures ActorInv(Invalidate(s, at))
    ensures ActorInv(RequestFresh(Invalidate(s, at), finished))
  {
    InvalidateKeeps(s, at);
    RequestFreshKeeps(Invalidate(s, at), finished);
  }

  lemma ActivationKeeps(s: ActorState, now: real, finished: bool)
    requires TokensBounded(s)
    ensures ActorInv(OnControl(s, Activate, now, finished))
  {
    InvalidateAndRefresh(s.(active := true, powerTransition := false), now, finished);
  }

  lemma PowerOffFinishKeeps(s: ActorState, reported: Option<bool>, now: real, finished: bool)
    requires TokensBounded(s)
    ensures ActorInv(OnControl(s, FinishPowerOff(reported), now, finished))
  {
    InvalidateAndRefresh(s.(powerTransition := false, powered := reported.GetOr(false)), now, finished);
  }

  lemma ReconfigurationKeeps(s: ActorState, options: Options, now: real, finished: bool)
    requires TokensBounded(s)
    ensures ActorInv(OnControl(s, Reconfigure(options), now, finished))
  {
    InvalidateAndRefresh(s.(configuration := s.configuration + 1, options := options), now, finished);
  }

  lemma RestingControlsKeep(s: ActorState, e: Event, now: real, finished: bool)
    requires TokensBounded(s) && (e.Yield? || e.BeginPowerOff? || e.Shutdown?)
    ensures ActorInv(OnControl(s, e, now, finished))
  {
    InvalidateKeeps(s.(active := false, powerTransition := false), now);
    InvalidateKeeps(s.(powerTransition := true), now);
    InvalidateKeeps(s.(active := false), now);
  }

  lemma ControlsKeep(s: ActorState, e: Event, now: real, finished: bool)
    requires TokensBounded(s) && IsControl(e)
    ensures ActorInv(OnControl(s, e, now, finished))
  {
    if e.Activate? {
      ActivationKeeps(s, now, finished);
    } else if e.FinishPowerOff? {
      PowerOffFinishKeeps(s, e.reported, now, finished);
    } else if e.Reconfigure? {
      ReconfigurationKeeps(s, e.options, now, finished);
    } else {
      RestingControlsKeep(s, e, now, finished);
    }
  }

  lemma ConnectionKeeps(s: ActorState, e: Event, finished: bool)
    requires ActorInv(s) && e.Connection?
    ensures ActorInv(OnConnection(s, e, finished))
  {
    var s1 := s.(lastSeen := if e.generation != s.connection then None else s.lastSeen,
                 connection := e.generation, available := e.up);
    InvalidateAndRefresh(s1, e.seenAt, finished);
  }

  lemma PowerKeeps(s: ActorState, on: bool, now: real, finished: bool)
    requires ActorInv(s)
    ensures ActorInv(OnPower(s, on, now, finished))
  {
    InvalidateAndRefresh(s.(powered := on), now, finished);
  }

  lemma FanKeeps(s: ActorState, e: Event, now: real, finished: bool)
    requires ActorInv(s) && e.FanObserved?
    ensures ActorInv(OnFan(s, e, now, finished))
  {
    InvalidateAndRefresh(s, now, finished);
    InvalidateKeeps(s.(active := false), now);
  }

  lemma ReportsKeep(s: ActorState, input: Input)
    requires ActorInv(s)
    requires input.event.Connection? || input.event.Power? || input.event.FanObserved? || input.event.AirQuality?
    ensures ActorInv(Step(s, input))
  {
    if input.event.Connection? {
      ConnectionKeeps(s, input.event, input.sampleFinished);
    } else if input.event.Power? {
      PowerKeeps(s, input.event.on, input.now, input.sampleFinished);
    } else if input.event.AirQuality? {
      AirQualityKeeps(s, input.event, input.sampleFinished);
    } else {
      FanKeeps(s, input.event, input.now, input.sampleFinished);
    }
  }

  /** After every step a command worker exists exactly when the policy has a pending
    * target, and carries that target and the current token; an unusable actor has no
    * workers and a fresh policy. This survives every event but one. */
  lemma StepKeepsActorInv(s: ActorState, input: Input)
    requires ActorInv(s) && Genuine(s, input.event)
    ensures ActorInv(Step(s, input)) <==> !Strands(s, input.event)
  {
    if s.stopped {
    } else if !input.event.WorkDone? {
      if input.event.Connection? || input.event.Power? || input.event.FanObserved? || input.event.AirQuality? {
        ReportsKeep(s, input);
      } else {
        ControlsKeep(s, input.event, input.now, input.sampleFinished);
      }
    } else if Strands(s, input.event) {
      assert s.policy.pendingTarget.Some?;
      assert CommandWork !in Step(s, input).workers;
    } else {
      WorkDoneKeeps(s, input.event, input.now, input.sampleFinished);
    }
  }
}
