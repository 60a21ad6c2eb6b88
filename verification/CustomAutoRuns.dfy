/** What holds along every run of the Custom Auto actor. */
module CustomAutoRuns {
  import opened Models
  import P = CustomAutoPolicy
  import I = CustomAutoInvariant
  import opened CustomAutoActor

  /** Every completion in the run was produced by a worker the actor spawned, and no
    * running command is cancelled from outside the actor. */
  predicate Plausible(s: ActorState, inputs: seq<Input>) {
    inputs == [] || (
      var before, last := inputs[..|inputs| - 1], inputs[|inputs| - 1];
      && Plausible(s, before)
      && Genuine(Run(s, before), last.event) && !Strands(Run(s, before), last.event))
  }

  lemma FreshActorSatisfiesInv(options: P.Options)
    ensures ActorInv(Fresh(options))
  {
  }

  lemma {:induction false} RunKeepsActorInv(s: ActorState, inputs: seq<Input>)
    requires ActorInv(s) && Plausible(s, inputs)
    ensures ActorInv(Run(s, inputs))
  {
    if inputs != [] {
      var before := inputs[..|inputs| - 1];
      RunKeepsActorInv(s, before);
      StepKeepsActorInv(Run(s, before), inputs[|inputs| - 1]);
    }
  }

  /** Every actor reached from a fresh one, by completions it has spawned and without an
    * outside cancellation of its command, satisfies the invariant. */
  lemma ReachableActorsSatisfyInv(options: P.Options, inputs: seq<Input>)
    requires Plausible(Fresh(options), inputs)
    ensures ActorInv(Run(Fresh(options), inputs))
  {
    FreshActorSatisfiesInv(options);
    RunKeepsActorInv(Fresh(options), inputs);
  }

  // ---- what one step leaves alone ----

  /** The event takes ownership away from the policy. */
  predicate Invalidates(s: ActorState, input: Input) {
    !s.stopped &&
    match input.event
    case Connection(up, generation, _) => generation > s.connection || (generation == s.connection && (!up || !s.available))
    case Power(on) => on != s.powered
    case FanObserved(generation, physical, _) => generation == s.connection && s.active && physical
    case AirQuality(_, _, _, _) => false
    case WorkDone(_, _, _, _, _, _) => false
    case _ => true
  }

  /** The generations and barriers are untouched and the spawn record only grows. */
  predicate SameBarriers(s: ActorState, t: ActorState) {
    && t.activation == s.activation && t.configuration == s.configuration && t.connection == s.connection
    && t.barrierAt == s.barrierAt && t.barrierRevision == s.barrierRevision
    && s.spawned <= t.spawned
  }

  /** The revision memory that an invalidation turns into a barrier. */
  function Remembered(s: ActorState, e: Event): Option<int> {
    if e.Connection? && e.generation != s.connection then None else s.lastSeen
  }

  function BarrierTime(input: Input): real {
    if input.event.Connection? then input.event.seenAt else input.now
  }

  predicate Invalidated(s: ActorState, input: Input, t: ActorState) {
    && t.activation == s.activation + 1
    && t.connection == (if input.event.Connection? then input.event.generation else s.connection)
    && t.lastSeen == Remembered(s, input.event) && t.barrierRevision == t.lastSeen
    && t.barrierAt == Some(if s.barrierAt.None? then BarrierTime(input) else Max(s.barrierAt.value, BarrierTime(input)))
    && s.spawned <= t.spawned
    && t.policy == P.InitialState(None)
  }

  predicate Undisturbed(s: ActorState, input: Input, t: ActorState) {
    && SameBarriers(s, t)
    && t.lastSeen == (
         var e := input.event;
         if !s.stopped && e.AirQuality? && e.generation == s.connection && (s.lastSeen.None? || e.revision > s.lastSeen.value)
         then Some(e.revision) else s.lastSeen)
  }

  /** What a step does to generations, barriers and the spawn record. */
  predicate Bookkeeping(s: ActorState, input: Input, t: ActorState) {
    if Invalidates(s, input) then Invalidated(s, input, t) else Undisturbed(s, input, t)
  }

  lemma SampleKeepsBarriers(s: ActorState, asked: bool, finished: bool)
    ensures var t := SampleIfAsked(s, asked, finished);
      SameBarriers(s, t) && t.lastSeen == s.lastSeen && t.policy == s.policy
    ensures var t := RequestFresh(s, finished);
      SameBarriers(s, t) && t.lastSeen == s.lastSeen && t.policy == s.policy
  {
  }

  lemma SpawningKeepsBarriers(s: ActorState, target: Option<FanMode>, boundary: Option<real>)
    ensures var t := ScheduleTarget(s, target);
      SameBarriers(s, t) && t.lastSeen == s.lastSeen
    ensures var t := TimerIfNeeded(s, boundary);
      SameBarriers(s, t) && t.lastSeen == s.lastSeen
  {
  }

  lemma AdoptKeepsBarriers(s: ActorState, r: P.PolicyResult, finished: bool)
    ensures SameBarriers(s, Adopt(s, r, finished)) && Adopt(s, r, finished).lastSeen == s.lastSeen
  {
    var s0 := s.(policy := r.state, workers := s.workers - {TimerWork});
    var s1 := ScheduleTarget(s0, r.target);
    SpawningKeepsBarriers(s0, r.target, None);
    var s2 := SampleIfAsked(s1, r.requestSample, finished);
    SampleKeepsBarriers(s1, r.requestSample, finished);
    SpawningKeepsBarriers(s2, None, r.nextBoundaryAt);
    assert s0.spawned <= s1.spawned <= s2.spawned;
  }

  lemma ConfirmedKeepsBarriers(s: ActorState, mode: FanMode, now: real, finished: bool)
    ensures SameBarriers(s, Confirmed(s, mode, now, finished))
    ensures Confirmed(s, mode, now, finished).lastSeen == s.lastSeen
  {
    var c := P.ConfirmPending(s.policy, mode);
    if c.Ok? {
      var r := P.ReconcileDeferred(c.value, s.options);
      AdoptKeepsBarriers(s, r, finished);
      var s1 := Adopt(s, r, finished);
      AdoptKeepsBarriers(s1, P.EvaluateBoundary(s1.policy, s.options, now), finished);
    }
  }

  lemma TimerKeepsBarriers(s: ActorState, now: real, finished: bool)
    ensures var s1 := s.(workers := s.workers - {TimerWork});
      var t := Adopt(s1, P.EvaluateBoundary(s.policy, s.options, now), finished);
      SameBarriers(s, t) && t.lastSeen == s.lastSeen
  {
    AdoptKeepsBarriers(s.(workers := s.workers - {TimerWork}), P.EvaluateBoundary(s.policy, s.options, now), finished);
  }

  predicate Keeps(s: ActorState, t: ActorState) {
    SameBarriers(s, t) && t.lastSeen == s.lastSeen
  }

  lemma RescheduleKeepsBarriers(s: ActorState, target: Option<FanMode>)
    ensures Keeps(s, ScheduleTarget(s.(workers := s.workers - {CommandWork}), target))
  {
    SpawningKeepsBarriers(s.(workers := s.workers - {CommandWork}), target, None);
  }

  lemma ConfirmationKeepsBarriers(s: ActorState, mode: FanMode, now: real, finished: bool)
    ensures Keeps(s, Confirmed(s.(workers := s.workers - {CommandWork}), mode, now, finished))
  {
    ConfirmedKeepsBarriers(s.(workers := s.workers - {CommandWork}), mode, now, finished);
  }

  lemma CommandKeepsBarriers(s: ActorState, e: Event, now: real, finished: bool)
    requires e.WorkDone? && e.kind.CommandWork?
    ensures Keeps(s, OnWorkDone(s, e, now, finished))
  {
    RescheduleKeepsBarriers(s, s.policy.pendingTarget);
    if e.target.Some? {
      ConfirmationKeepsBarriers(s, e.target.value, now, finished);
    }
  }

  lemma WorkDoneKeepsBarriers(s: ActorState, e: Event, now: real, finished: bool)
    requires e.WorkDone?
    ensures SameBarriers(s, OnWorkDone(s, e, now, finished))
    ensures OnWorkDone(s, e, now, finished).lastSeen == s.lastSeen
  {
    if e.kind.TimerWork? {
      TimerKeepsBarriers(s, now, finished);
    } else if e.kind.CommandWork? {
      CommandKeepsBarriers(s, e, now, finished);
    }
  }

  lemma AirQualityKeepsBarriers(s: ActorState, e: Event, finished: bool)
    requires e.AirQuality?
    ensures SameBarriers(s, OnAirQuality(s, e, finished))
    ensures OnAirQuality(s, e, finished).lastSeen
         == if e.generation == s.connection && (s.lastSeen.None? || e.revision > s.lastSeen.value)
            then Some(e.revision) else s.lastSeen
  {
    if ReachesPolicy(s, e) {
      AdoptKeepsBarriers(s.(lastSeen := Some(e.revision)),
                         P.EvaluateObservation(s.policy, s.options, e.pm25, e.revision, e.at), finished);
    }
  }

  lemma InvalidationKeepsBooks(s: ActorState, s0: ActorState, input: Input)
    requires s0.activation == s.activation && s0.barrierAt == s.barrierAt && s0.spawned == s.spawned
    requires s0.lastSeen == Remembered(s, input.event)
    requires s0.connection == if input.event.Connection? then input.event.generation else s.connection
    ensures Invalidated(s, input, Invalidate(s0, BarrierTime(input)))
    ensures Invalidated(s, input, RequestFresh(Invalidate(s0, BarrierTime(input)), input.sampleFinished))
  {
    SampleKeepsBarriers(Invalidate(s0, BarrierTime(input)), true, input.sampleFinished);
  }

  lemma WakingControlsKeepBooks(s: ActorState, input: Input)
    requires !s.stopped && (input.event.Activate? || input.event.FinishPowerOff? || input.event.Reconfigure?)
    ensures Invalidated(s, input, OnControl(s, input.event, input.now, input.sampleFinished))
  {
    var s1 := match input.event
      case Activate => s.(active := true, powerTransition := false)
      case FinishPowerOff(reported) => s.(powerTransition := false, powered := reported.GetOr(false))
      case Reconfigure(options) => s.(configuration := s.configuration + 1, options := options)
      case _ => s;
    InvalidationKeepsBooks(s, s1, input);
  }

  lemma ControlsKeepBooks(s: ActorState, input: Input)
    requires IsControl(input.event) && !s.stopped
    ensures Invalidated(s, input, OnControl(s, input.event, input.now, input.sampleFinished))
  {
    if input.event.Activate? || input.event.FinishPowerOff? || input.event.Reconfigure? {
      WakingControlsKeepBooks(s, input);
    } else if input.event.Yield? {
      InvalidationKeepsBooks(s, s.(active := false, powerTransition := false), input);
    } else if input.event.BeginPowerOff? {
      InvalidationKeepsBooks(s, s.(powerTransition := true), input);
    } else {
      InvalidationKeepsBooks(s, s.(active := false), input);
    }
  }

  lemma ConnectionKeepsBooks(s: ActorState, input: Input)
    requires input.event.Connection? && !s.stopped
    ensures Bookkeeping(s, input, OnConnection(s, input.event, input.sampleFinished))
  {
    var e := input.event;
    InvalidationKeepsBooks(s, s.(lastSeen := if e.generation != s.connection then None else s.lastSeen,
                                 connection := e.generation, available := e.up), input);
  }

  lemma FanKeepsBooks(s: ActorState, input: Input)
    requires input.event.FanObserved? && !s.stopped
    ensures Bookkeeping(s, input, OnFan(s, input.event, input.now, input.sampleFinished))
  {
    InvalidationKeepsBooks(s, s, input);
    InvalidationKeepsBooks(s, s.(active := false), input);
  }

  lemma PowerKeepsBooks(s: ActorState, input: Input)
    requires input.event.Power? && !s.stopped
    ensures Bookkeeping(s, input, OnPower(s, input.event.on, input.now, input.sampleFinished))
  {
    InvalidationKeepsBooks(s, s.(powered := input.event.on), input);
  }

  lemma AirQualityKeepsBooks(s: ActorState, input: Input)
    requires input.event.AirQuality? && !s.stopped
    ensures Bookkeeping(s, input, OnAirQuality(s, input.event, input.sampleFinished))
  {
    AirQualityKeepsBarriers(s, input.event, input.sampleFinished);
  }

  lemma WorkDoneKeepsBooks(s: ActorState, input: Input)
    requires input.event.WorkDone? && !s.stopped
    ensures Bookkeeping(s, input, OnWorkDone(s, input.event, input.now, input.sampleFinished))
  {
    WorkDoneKeepsBarriers(s, input.event, input.now, input.sampleFinished);
  }

  lemma StepKeepsBooks(s: ActorState, input: Input)
    ensures Bookkeeping(s, input, Step(s, input))
  {
    if s.stopped {
    } else if input.event.AirQuality? {
      AirQualityKeepsBooks(s, input);
    } else if input.event.WorkDone? {
      WorkDoneKeepsBooks(s, input);
    } else if input.event.Connection? {
      ConnectionKeepsBooks(s, input);
    } else if input.event.FanObserved? {
      FanKeepsBooks(s, input);
    } else if input.event.Power? {
      PowerKeepsBooks(s, input);
    } else {
      ControlsKeepBooks(s, input);
    }
  }

  // ---- late completions ----

  lemma {:induction false} RunGrows(s: ActorState, inputs: seq<Input>)
    ensures s.spawned <= Run(s, inputs).spawned
    ensures s.activation <= Run(s, inputs).activation
  {
    if inputs != [] {
      RunGrows(s, inputs[..|inputs| - 1]);
      StepKeepsBooks(Run(s, inputs[..|inputs| - 1]), inputs[|inputs| - 1]);
    }
  }

  /** Work spawned before an invalidation never changes anything after it, whenever
    * and however its completion arrives. */
  lemma LateCompletionsAreIgnored(s: ActorState, inputs: seq<Input>, late: Input)
    requires ActorInv(s) && Plausible(s, inputs)
    requires s.activation < Run(s, inputs).activation
    requires late.event.WorkDone? && Genuine(s, late.event)
    ensures Step(Run(s, inputs), late) == Run(s, inputs)
  {
    RunKeepsActorInv(s, inputs);
    RunGrows(s, inputs);
    var t, e := Run(s, inputs), late.event;
    assert t.spawned[e.serial - 1] == s.spawned[e.serial - 1];
    assert e.token.activation <= s.activation;
  }

  /** A genuine completion of the current command always finds the pending target it
    * was sent for: confirmation cannot be refused and the mismatch branch is never taken. */
  lemma CurrentCommandMatches(s: ActorState, e: Event)
    requires ActorInv(s) && e.WorkDone? && Genuine(s, e)
    requires e.kind == CommandWork && CommandWork in s.workers && s.workers[CommandWork] == e.serial
    ensures Usable(s) && e.token == CurrentToken(s)
    ensures e.target == s.policy.pendingTarget && e.target.Some?
    ensures P.ConfirmPending(s.policy, e.target.value).Ok?
  {
    I.AcknowledgeKeeps(s.policy, s.options, e.target.value);
  }

  // ---- a command cancelled from outside ----

  predicate Stranded(s: ActorState) {
    Usable(s) && s.policy.pendingTarget.Some? && CommandWork !in s.workers && !s.stopped
  }

  /** No command has been sent on the way from s to t. */
  predicate NoNewCommand(s: ActorState, t: ActorState) {
    s.spawned <= t.spawned && forall i | |s.spawned| <= i < |t.spawned| :: t.spawned[i].kind != CommandWork
  }

  lemma PendingPolicyStaysQuiet(s: P.PolicyState, o: P.Options, pm25: Option<int>, revision: int, at: real)
    requires s.pendingTarget.Some?
    ensures var r := P.EvaluateObservation(s, o, pm25, revision, at);
      r.target.None? && r.state.pendingTarget == s.pendingTarget
    ensures var b := P.EvaluateBoundary(s, o, at);
      b.target.None? && b.state.pendingTarget == s.pendingTarget
  {
  }

  lemma SampleStaysStranded(s: ActorState, asked: bool, finished: bool)
    requires Stranded(s)
    ensures Stranded(SampleIfAsked(s, asked, finished)) && NoNewCommand(s, SampleIfAsked(s, asked, finished))
  {
  }

  lemma AdoptQuietly(s: ActorState, r: P.PolicyResult, finished: bool)
    requires Stranded(s) && r.target.None? && r.state.pendingTarget == s.policy.pendingTarget
    ensures Stranded(Adopt(s, r, finished)) && NoNewCommand(s, Adopt(s, r, finished))
  {
    SampleStaysStranded(s.(policy := r.state, workers := s.workers - {TimerWork}), r.requestSample, finished);
  }

  lemma AirQualityStaysStranded(s: ActorState, e: Event, finished: bool)
    requires Stranded(s) && e.AirQuality?
    ensures Stranded(OnAirQuality(s, e, finished)) && NoNewCommand(s, OnAirQuality(s, e, finished))
  {
    if ReachesPolicy(s, e) {
      PendingPolicyStaysQuiet(s.policy, s.options, e.pm25, e.revision, e.at);
      AdoptQuietly(s.(lastSeen := Some(e.revision)),
                   P.EvaluateObservation(s.policy, s.options, e.pm25, e.revision, e.at), finished);
    }
  }

  lemma WorkDoneStaysStranded(s: ActorState, e: Event, now: real, finished: bool)
    requires Stranded(s) && e.WorkDone?
    ensures Stranded(OnWorkDone(s, e, now, finished)) && NoNewCommand(s, OnWorkDone(s, e, now, finished))
  {
    if e.kind == TimerWork && e.kind in s.workers {
      PendingPolicyStaysQuiet(s.policy, s.options, None, 0, now);
      AdoptQuietly(s.(workers := s.workers - {TimerWork}), P.EvaluateBoundary(s.policy, s.options, now), finished);
    }
  }

  /** Cancelling the running command from outside strands its target: no event short of
    * an invalidation makes the actor send another command. */
  lemma StrandedUntilInvalidated(s: ActorState, input: Input)
    requires Stranded(s) && !Invalidates(s, input)
    ensures Stranded(Step(s, input)) && NoNewCommand(s, Step(s, input))
  {
    if input.event.AirQuality? {
      AirQualityStaysStranded(s, input.event, input.sampleFinished);
    } else if input.event.WorkDone? {
      WorkDoneStaysStranded(s, input.event, input.now, input.sampleFinished);
    } else {
      assert Step(s, input) == s;
    }
  }

  predicate Undisputed(s: ActorState, inputs: seq<Input>) {
    inputs == [] || (
      var before := inputs[..|inputs| - 1];
      Undisputed(s, before) && !Invalidates(Run(s, before), inputs[|inputs| - 1]))
  }

  lemma {:induction false} StrandedThroughout(s: ActorState, inputs: seq<Input>)
    requires Stranded(s) && Undisputed(s, inputs)
    ensures Stranded(Run(s, inputs)) && NoNewCommand(s, Run(s, inputs))
  {
    if inputs != [] {
      var before := inputs[..|inputs| - 1];
      StrandedThroughout(s, before);
      var t := Run(s, before);
      StrandedUntilInvalidated(t, inputs[|inputs| - 1]);
    }
  }

  lemma CancellationStrands(s: ActorState, input: Input)
    requires ActorInv(s) && Genuine(s, input.event) && Strands(s, input.event)
    ensures Stranded(Step(s, input))
  {
  }

  /** An outside cancellation of the running command of a reachable actor leaves its target
    * pending with no worker, and through any later events that do not invalidate it stays
    * so and no command is sent. */
  lemma OutsideCancellationStrands(options: P.Options, inputs: seq<Input>, cancel: Input, later: seq<Input>)
    requires Plausible(Fresh(options), inputs)
    requires Genuine(Run(Fresh(options), inputs), cancel.event) && Strands(Run(Fresh(options), inputs), cancel.event)
    requires Undisputed(Step(Run(Fresh(options), inputs), cancel), later)
    ensures var s := Step(Run(Fresh(options), inputs), cancel);
      Stranded(Run(s, later)) && NoNewCommand(s, Run(s, later))
  {
    ReachableActorsSatisfyInv(options, inputs);
    CancellationStrands(Run(Fresh(options), inputs), cancel);
    StrandedThroughout(Step(Run(Fresh(options), inputs), cancel), later);
  }

  lemma RunExtends(s: ActorState, inputs: seq<Input>, input: Input)
    ensures Run(s, inputs + [input]) == Step(Run(s, inputs), input)
    ensures Plausible(s, inputs + [input]) <==>
      Plausible(s, inputs) && Genuine(Run(s, inputs), input.event) && !Strands(Run(s, inputs), input.event)
  {
    assert (inputs + [input])[..|inputs|] == inputs;
  }

  /** A usable actor with a sample running, before its first reading. */
  predicate Poised(s: ActorState) {
    && Usable(s) && !s.stopped && s.policy == P.InitialState(None) && s.connection == 1 && s.lastSeen == None
    && s.barrierRevision == None && s.barrierAt == Some(0.0) && CommandWork !in s.workers
  }

  lemma StartingPoises(options: P.Options, inputs: seq<Input>)
    requires inputs == [Input(Activate, 0.0, false), Input(Connection(true, 1, 0.0), 0.0, false), Input(Power(true), 0.0, false)]
    ensures Poised(Run(Fresh(options), inputs)) && Plausible(Fresh(options), inputs)
    ensures Run(Fresh(options), inputs).options == options
  {
    var f := Fresh(options);
    RunExtends(f, [], inputs[0]);
    RunExtends(f, [] + [inputs[0]], inputs[1]);
    RunExtends(f, [] + [inputs[0]] + [inputs[1]], inputs[2]);
    assert [] + [inputs[0]] + [inputs[1]] + [inputs[2]] == inputs;
  }

  /** A command is in flight. */
  predicate Sending(t: ActorState) {
    && t.policy.pendingTarget.Some? && CommandWork in t.workers && !t.stopped
    && 1 <= t.workers[CommandWork] <= |t.spawned|
    && t.spawned[t.workers[CommandWork] - 1] == Work(CommandWork, CurrentToken(t), t.policy.pendingTarget, None)
  }

  lemma FirstReadingSends(s: ActorState, reading: Input)
    requires Poised(s) && s.options.enabled && reading == Input(AirQuality(1, 1, Some(100), 1.0), 1.0, false)
    ensures Sending(Step(s, reading))
  {
  }

  lemma FirstCommandRuns(f: ActorState, start: seq<Input>, s: ActorState, reading: Input)
    requires s == Run(f, start) && Poised(s) && s.options.enabled && Plausible(f, start)
    requires reading == Input(AirQuality(1, 1, Some(100), 1.0), 1.0, false)
    ensures Sending(Run(f, start + [reading])) && Plausible(f, start + [reading])
  {
    FirstReadingSends(s, reading);
    RunExtends(f, start, reading);
  }

  /** The running command's worker is cancelled from outside. */
  lemma CommandIsCancelled(t: ActorState) returns (cancel: Input)
    requires Sending(t)
    ensures Genuine(t, cancel.event) && Strands(t, cancel.event)
  {
    cancel := Input(WorkDone(CommandWork, t.workers[CommandWork], CurrentToken(t), t.policy.pendingTarget, false, true),
                    2.0, false);
  }

  /** Such a cancellation can happen: a connected, powered, active purifier has read its
    * first PM2.5 value and is sending its first command. */
  lemma StrandingIsReachable(options: P.Options, inputs: seq<Input>) returns (cancel: Input)
    requires options.enabled
    requires inputs == [Input(Activate, 0.0, false), Input(Connection(true, 1, 0.0), 0.0, false),
                        Input(Power(true), 0.0, false), Input(AirQuality(1, 1, Some(100), 1.0), 1.0, false)]
    ensures Plausible(Fresh(options), inputs)
    ensures Genuine(Run(Fresh(options), inputs), cancel.event) && Strands(Run(Fresh(options), inputs), cancel.event)
  {
    var f, start := Fresh(options), inputs[..3];
    StartingPoises(options, start);
    FirstCommandRuns(f, start, Run(f, start), inputs[3]);
    assert start + [inputs[3]] == inputs;
    cancel := CommandIsCancelled(Run(f, inputs));
  }

  // ---- the freshness barrier ----

  /** What an outside observer of the actor's inputs has recorded: the time of every
    * invalidation, the revisions received on the current connection, and how many of
    * them came before the latest invalidation. */
  datatype Ledger = Ledger(barriers: seq<real>, seen: seq<int>, before: nat)

  function Received(l: Ledger, s: ActorState, e: Event): seq<int> {
    if e.Connection? && e.generation > s.connection then []
    else if e.AirQuality? && e.generation == s.connection then l.seen + [e.revision]
    else l.seen
  }

  function Note(l: Ledger, s: ActorState, input: Input): Ledger {
    if s.stopped then l
    else
      var seen := Received(l, s, input.event);
      if Invalidates(s, input) then Ledger(l.barriers + [BarrierTime(input)], seen, |seen|)
      else Ledger(l.barriers, seen, l.before)
  }

  function Record(s: ActorState, inputs: seq<Input>): Ledger {
    if inputs == [] then Ledger([], [], 0)
    else
      var before := inputs[..|inputs| - 1];
      Note(Record(s, before), Run(s, before), inputs[|inputs| - 1])
  }

  predicate Agrees(l: Ledger, s: ActorState) {
    && l.before <= |l.seen|
    && (s.barrierAt.Some? <==> l.barriers != [])
    && (s.barrierAt.Some? ==> s.barrierAt.value in l.barriers && forall b | b in l.barriers :: b <= s.barrierAt.value)
    && (s.lastSeen.Some? <==> l.seen != [])
    && (s.lastSeen.Some? ==> s.lastSeen.value in l.seen && forall r | r in l.seen :: r <= s.lastSeen.value)
    && (s.barrierRevision.Some? <==> l.before > 0)
    && (s.barrierRevision.Some? ==>
          && s.barrierRevision.value in l.seen[..l.before]
          && forall r | r in l.seen[..l.before] :: r <= s.barrierRevision.value)
  }

  /** l lists what came before seen; an invalidation makes all of it the past. */
  lemma SeenGrows(l: Ledger, seen: seq<int>)
    requires l.before <= |l.seen|
    ensures seen[..|seen|] == seen
    ensures l.seen <= seen ==> seen[..l.before] == l.seen[..l.before]
  {
  }

  lemma InvalidationAgrees(l: Ledger, s: ActorState, input: Input, t: ActorState)
    requires Agrees(l, s) && !s.stopped && Invalidates(s, input) && Invalidated(s, input, t)
    ensures Agrees(Note(l, s, input), t)
  {
    SeenGrows(l, Received(l, s, input.event));
  }

  lemma NoteAgrees(l: Ledger, s: ActorState, input: Input, t: ActorState)
    requires Agrees(l, s) && (if s.stopped then t == s else Bookkeeping(s, input, t))
    ensures Agrees(Note(l, s, input), t)
  {
    if !s.stopped {
      if Invalidates(s, input) {
        InvalidationAgrees(l, s, input, t);
      } else {
        SeenGrows(l, Received(l, s, input.event));
      }
    }
  }

  lemma {:induction false} RecordAgrees(options: P.Options, inputs: seq<Input>)
    ensures Agrees(Record(Fresh(options), inputs), Run(Fresh(options), inputs))
  {
    if inputs != [] {
      var before := inputs[..|inputs| - 1];
      var s := Run(Fresh(options), before);
      RecordAgrees(options, before);
      StepKeepsBooks(s, inputs[|inputs| - 1]);
      NoteAgrees(Record(Fresh(options), before), s, inputs[|inputs| - 1], Step(s, inputs[|inputs| - 1]));
    }
  }

  /** A reading is fresh for the ledger: newer than every revision received on this
    * connection and no older than any invalidation. */
  predicate FreshFor(l: Ledger, e: Event) {
    && e.AirQuality?
    && (forall b | b in l.barriers :: b <= e.at)
    && (forall r | r in l.seen :: r < e.revision)
  }

  lemma ReachingIsFresh(l: Ledger, s: ActorState, e: Event)
    requires Agrees(l, s) && e.AirQuality?
    ensures ReachesPolicy(s, e) <==> Usable(s) && e.generation == s.connection && FreshFor(l, e)
  {
    if s.barrierRevision.Some? {
      assert s.barrierRevision.value in l.seen;
    }
  }

  /** In every run, the readings the policy evaluates are exactly those that arrive
    * while the actor is usable, belong to the current connection, are no older than
    * any invalidation so far, and are newer than every revision received on this
    * connection, whether before or after the latest invalidation. */
  lemma ReadingsAreFresh(options: P.Options, inputs: seq<Input>, e: Event)
    requires e.AirQuality?
    ensures var s := Run(Fresh(options), inputs);
      ReachesPolicy(s, e) <==>
        Usable(s) && e.generation == s.connection && FreshFor(Record(Fresh(options), inputs), e)
  {
    RecordAgrees(options, inputs);
    ReachingIsFresh(Record(Fresh(options), inputs), Run(Fresh(options), inputs), e);
  }

  lemma UnreadKeepsPolicy(s: ActorState, e: Event, finished: bool)
    requires e.AirQuality? && !ReachesPolicy(s, e)
    ensures OnAirQuality(s, e, finished).policy == s.policy
  {
  }

  lemma StaleWorkKeepsPolicy(s: ActorState, e: Event, now: real, finished: bool)
    requires e.WorkDone?
    requires !(e.kind in s.workers && s.workers[e.kind] == e.serial && e.token == CurrentToken(s) && !e.cancelled)
    ensures OnWorkDone(s, e, now, finished).policy == s.policy
  {
  }

  lemma OtherEventsKeepPolicy(s: ActorState, input: Input)
    requires !input.event.AirQuality? && !input.event.WorkDone? && !Invalidates(s, input)
    ensures Step(s, input).policy == s.policy
  {
  }

  /** Nothing else moves the policy: a step changes it only by evaluating such a
    * reading, by completing the actor's own current work, or by invalidating it. */
  lemma PolicyChangesOnlyBy(s: ActorState, input: Input)
    requires Step(s, input).policy != s.policy
    ensures var e := input.event;
      || ReachesPolicy(s, e)
      || (e.WorkDone? && e.kind in s.workers && s.workers[e.kind] == e.serial && e.token == CurrentToken(s) && !e.cancelled)
      || (Invalidates(s, input) && Step(s, input).policy == P.InitialState(None))
  {
    var e := input.event;
    if e.AirQuality? && !ReachesPolicy(s, e) {
      UnreadKeepsPolicy(s, e, input.sampleFinished);
    } else if e.WorkDone?
           && !(e.kind in s.workers && s.workers[e.kind] == e.serial && e.token == CurrentToken(s) && !e.cancelled) {
      StaleWorkKeepsPolicy(s, e, input.now, input.sampleFinished);
    } else if Invalidates(s, input) {
      StepKeepsBooks(s, input);
    } else if !e.AirQuality? && !e.WorkDone? {
      OtherEventsKeepPolicy(s, input);
    }
  }
}
