/** The actor always sleeps until the policy's next boundary, and asks for a sample whenever
  * it starts afresh or such a boundary has passed. */
module CustomAutoWorkers {
  import opened Models
  import P = CustomAutoPolicy
  import T = CustomAutoTimers
  import opened CustomAutoActor
  import opened CustomAutoRuns
  import opened CustomAutoEngagement

  // ---- the timer ----

  /** The timer worker sleeps until this boundary, if there is one. */
  predicate SleepsUntil(s: ActorState, boundary: Option<real>) {
    && (TimerWork in s.workers <==> boundary.Some?)
    && (TimerWork in s.workers ==>
          && 1 <= s.workers[TimerWork] <= |s.spawned|
          && s.spawned[s.workers[TimerWork] - 1].kind == TimerWork
          && s.spawned[s.workers[TimerWork] - 1].until == boundary)
  }

  /** A timer runs exactly while the policy has a boundary, and sleeps until that boundary. */
  predicate TimerRuns(s: ActorState) {
    SleepsUntil(s, P.NextBoundary(s.policy, s.options))
  }

  predicate SameTimer(s: ActorState, t: ActorState) {
    && (TimerWork in t.workers <==> TimerWork in s.workers)
    && (TimerWork in s.workers ==> t.workers[TimerWork] == s.workers[TimerWork])
    && s.spawned <= t.spawned
  }

  lemma SleepsOn(s: ActorState, t: ActorState, boundary: Option<real>)
    requires SleepsUntil(s, boundary) && SameTimer(s, t)
    ensures SleepsUntil(t, boundary)
  {
  }

  lemma SpawningLeavesTheTimer(s: ActorState, target: Option<FanMode>, asked: bool, finished: bool)
    ensures SameTimer(s, ScheduleTarget(s, target)) && SameTimer(s, SampleIfAsked(s, asked, finished))
    ensures SameTimer(s, RequestFresh(s, finished))
  {
  }

  lemma TimerStarts(s: ActorState, boundary: Option<real>)
    requires TimerWork !in s.workers
    ensures SleepsUntil(TimerIfNeeded(s, boundary), boundary)
  {
  }

  /** Whatever the actor adopts, its timer then sleeps until the result's boundary. */
  lemma AdoptSleeps(s: ActorState, r: P.PolicyResult, finished: bool)
    requires r.nextBoundaryAt == P.NextBoundary(r.state, s.options)
    ensures TimerRuns(Adopt(s, r, finished)) && Adopt(s, r, finished).options == s.options
  {
    var s0 := s.(policy := r.state, workers := s.workers - {TimerWork});
    var s1 := ScheduleTarget(s0, r.target);
    var s2 := SampleIfAsked(s1, r.requestSample, finished);
    SpawningLeavesTheTimer(s0, r.target, false, finished);
    SpawningLeavesTheTimer(s1, None, r.requestSample, finished);
    TimerStarts(s2, r.nextBoundaryAt);
    AdoptKeepsStanding(s, r, finished);
    AdoptsState(s, r, finished);
  }

  lemma AdoptsState(s: ActorState, r: P.PolicyResult, finished: bool)
    ensures Adopt(s, r, finished).policy == r.state
  {
    AdoptKeepsStanding(s, r, finished);
  }

  lemma ResultsAreTimed(s: P.PolicyState, o: P.Options, op: P.Op)
    ensures P.Step(s, o, op).nextBoundaryAt == P.NextBoundary(P.Step(s, o, op).state, o)
  {
  }

  lemma FailureLeavesTheBoundary(s: P.PolicyState, o: P.Options)
    ensures P.NextBoundary(P.MarkFailed(s), o) == P.NextBoundary(s, o)
  {
  }

  lemma ConfirmedSleeps(s: ActorState, mode: FanMode, now: real, finished: bool)
    requires P.ConfirmPending(s.policy, mode).Ok?
    ensures TimerRuns(Confirmed(s, mode, now, finished))
  {
    var r := P.ReconcileDeferred(P.ConfirmPending(s.policy, mode).value, s.options);
    var s1 := Adopt(s, r, finished);
    AdoptKeepsStanding(s, r, finished);
    ResultsAreTimed(s1.policy, s.options, P.Boundary(now));
    AdoptSleeps(s1, P.EvaluateBoundary(s1.policy, s.options, now), finished);
  }

  /** The running timer's own completion reports a cancellation that the actor never asked
    * for, or a token that is not its own. */
  predicate LosesTimer(s: ActorState, e: Event) {
    && e.WorkDone? && e.kind == TimerWork && !s.stopped
    && TimerWork in s.workers && s.workers[TimerWork] == e.serial
    && (e.cancelled || e.token != CurrentToken(s))
  }

  lemma FailureSleeps(s: ActorState)
    requires TimerRuns(s)
    ensures TimerRuns(s.(workers := s.workers - {CommandWork}, policy := P.MarkFailed(s.policy)))
  {
    FailureLeavesTheBoundary(s.policy, s.options);
  }

  lemma RescheduleSleeps(s: ActorState, target: Option<FanMode>)
    requires TimerRuns(s)
    ensures TimerRuns(s.(workers := s.workers - {CommandWork}))
    ensures TimerRuns(ScheduleTarget(s.(workers := s.workers - {CommandWork}), target))
  {
    var s1 := s.(workers := s.workers - {CommandWork});
    SpawningLeavesTheTimer(s1, target, false, false);
    SleepsOn(s1, ScheduleTarget(s1, target), P.NextBoundary(s.policy, s.options));
    SchedulingKeepsPolicy(s1, target);
  }

  lemma SchedulingKeepsPolicy(s: ActorState, target: Option<FanMode>)
    ensures ScheduleTarget(s, target).policy == s.policy && ScheduleTarget(s, target).options == s.options
  {
  }

  lemma SuccessSleeps(s: ActorState, mode: FanMode, now: real, finished: bool)
    requires TimerRuns(s)
    ensures TimerRuns(Confirmed(s.(workers := s.workers - {CommandWork}), mode, now, finished))
  {
    RescheduleSleeps(s, None);
    if P.ConfirmPending(s.policy, mode).Ok? {
      ConfirmedSleeps(s.(workers := s.workers - {CommandWork}), mode, now, finished);
    }
  }

  lemma CommandSleeps(s: ActorState, e: Event, now: real, finished: bool)
    requires TimerRuns(s) && e.WorkDone? && e.kind == CommandWork
    ensures TimerRuns(OnWorkDone(s, e, now, finished))
  {
    var s1 := s.(workers := s.workers - {CommandWork});
    var t := OnWorkDone(s, e, now, finished);
    RescheduleSleeps(s, s.policy.pendingTarget);
    if e.target.Some? && t == Confirmed(s1, e.target.value, now, finished) {
      SuccessSleeps(s, e.target.value, now, finished);
    } else {
      FailureSleeps(s);
      assert t == s || t == s1 || t == ScheduleTarget(s1, s.policy.pendingTarget) || t == s1.(policy := P.MarkFailed(s.policy));
    }
  }

  lemma TimerSleeps(s: ActorState, e: Event, now: real, finished: bool)
    requires TimerRuns(s) && e.WorkDone? && e.kind == TimerWork && !s.stopped
    ensures TimerRuns(OnWorkDone(s, e, now, finished)) <==> !LosesTimer(s, e)
  {
    ResultsAreTimed(s.policy, s.options, P.Boundary(now));
    AdoptSleeps(s.(workers := s.workers - {TimerWork}), P.EvaluateBoundary(s.policy, s.options, now), finished);
  }

  lemma ReadingSleeps(s: ActorState, e: Event, finished: bool)
    requires TimerRuns(s) && e.AirQuality?
    ensures TimerRuns(OnAirQuality(s, e, finished))
  {
    ResultsAreTimed(s.policy, s.options, P.Observe(e.pm25, e.revision, e.at));
    AdoptSleeps(s.(lastSeen := Some(e.revision)), P.EvaluateObservation(s.policy, s.options, e.pm25, e.revision, e.at), finished);
  }

  /** A fresh start: the timer is right, and a sample started since runs exactly if the actor
    * may act. The first n workers were started before. */
  predicate StartsAfresh(n: nat, t: ActorState) {
    && TimerRuns(t) && (SampleWork in t.workers <==> Usable(t))
    && (SampleWork in t.workers ==> t.workers[SampleWork] > n)
  }

  lemma InvalidationStarts(s: ActorState, at: real, finished: bool)
    ensures StartsAfresh(|s.spawned|, RequestFresh(Invalidate(s, at), finished))
    ensures !Usable(s) ==> StartsAfresh(|s.spawned|, Invalidate(s, at))
  {
    SpawningLeavesTheTimer(Invalidate(s, at), None, false, finished);
    SamplingKeepsStanding(Invalidate(s, at), finished, false);
  }

  lemma ControlStarts(s: ActorState, e: Event, now: real, finished: bool)
    requires IsControl(e)
    ensures StartsAfresh(|s.spawned|, OnControl(s, e, now, finished))
  {
    match e
    case Activate => InvalidationStarts(s.(active := true, powerTransition := false), now, finished);
    case Yield => InvalidationStarts(s.(active := false, powerTransition := false), now, finished);
    case BeginPowerOff => InvalidationStarts(s.(powerTransition := true), now, finished);
    case FinishPowerOff(reported) =>
      InvalidationStarts(s.(powerTransition := false, powered := reported.GetOr(false)), now, finished);
    case Reconfigure(options) =>
      InvalidationStarts(s.(configuration := s.configuration + 1, options := options), now, finished);
    case Shutdown => InvalidationStarts(s.(active := false), now, finished);
  }

  lemma ConnectionStarts(s: ActorState, e: Event, finished: bool)
    requires e.Connection?
    ensures var t := OnConnection(s, e, finished); StartsAfresh(|s.spawned|, t) || t == s
  {
    var s1 := s.(lastSeen := if e.generation != s.connection then None else s.lastSeen,
                 connection := e.generation, available := e.up);
    InvalidationStarts(s1, e.seenAt, finished);
  }

  lemma PowerStarts(s: ActorState, on: bool, now: real, finished: bool)
    ensures var t := OnPower(s, on, now, finished); StartsAfresh(|s.spawned|, t) || t == s
  {
    InvalidationStarts(s.(powered := on), now, finished);
  }

  lemma FanStarts(s: ActorState, e: Event, now: real, finished: bool)
    requires e.FanObserved?
    ensures var t := OnFan(s, e, now, finished); StartsAfresh(|s.spawned|, t) || t == s
  {
    InvalidationStarts(s, now, finished);
    InvalidationStarts(s.(active := false), now, finished);
  }

  lemma WorkKeepsTimer(s: ActorState, input: Input)
    requires TimerRuns(s) && input.event.WorkDone? && !s.stopped
    ensures TimerRuns(Step(s, input)) <==> !LosesTimer(s, input.event)
  {
    var e, now, finished := input.event, input.now, input.sampleFinished;
    assert Step(s, input) == OnWorkDone(s, e, now, finished);
    if e.kind == TimerWork {
      TimerSleeps(s, e, now, finished);
    } else if e.kind == CommandWork {
      CommandSleeps(s, e, now, finished);
    } else {
      SampleSleeps(s, e, now, finished);
    }
  }

  lemma SampleSleeps(s: ActorState, e: Event, now: real, finished: bool)
    requires TimerRuns(s) && e.WorkDone? && e.kind == SampleWork
    ensures TimerRuns(OnWorkDone(s, e, now, finished))
  {
  }

  lemma ReportKeepsTimer(s: ActorState, input: Input)
    requires TimerRuns(s) && !s.stopped && !input.event.WorkDone?
    ensures TimerRuns(Step(s, input))
  {
    var e, now, finished := input.event, input.now, input.sampleFinished;
    if e.AirQuality? {
      ReadingSleeps(s, e, finished);
    } else if e.Connection? {
      ConnectionStarts(s, e, finished);
    } else if e.Power? {
      PowerStarts(s, e.on, now, finished);
    } else if e.FanObserved? {
      FanStarts(s, e, now, finished);
    } else {
      ControlStarts(s, e, now, finished);
    }
  }

  /** A step keeps the timer exactly unless the timer itself reports a cancellation that the
    * actor did not ask for. */
  lemma StepKeepsTimer(s: ActorState, input: Input)
    requires TimerRuns(s)
    ensures TimerRuns(Step(s, input)) <==> !LosesTimer(s, input.event)
  {
    if !s.stopped {
      if input.event.WorkDone? {
        WorkKeepsTimer(s, input);
      } else {
        ReportKeepsTimer(s, input);
      }
    }
  }

  predicate KeepsTimers(s: ActorState, inputs: seq<Input>) {
    inputs == [] || (
      var before := inputs[..|inputs| - 1];
      KeepsTimers(s, before) && !LosesTimer(Run(s, before), inputs[|inputs| - 1].event))
  }

  /** In every run without such a cancellation a timer runs exactly while the policy has a
    * boundary, and it sleeps until that boundary. */
  lemma {:induction false} TimersFollowTheBoundary(options: P.Options, inputs: seq<Input>)
    requires KeepsTimers(Fresh(options), inputs)
    ensures TimerRuns(Run(Fresh(options), inputs))
  {
    if inputs != [] {
      TimersFollowTheBoundary(options, inputs[..|inputs| - 1]);
      StepKeepsTimer(Run(Fresh(options), inputs[..|inputs| - 1]), inputs[|inputs| - 1]);
    }
  }

  // ---- samples ----

  lemma InvalidationStartsAfresh(s: ActorState, input: Input)
    requires Invalidates(s, input)
    ensures StartsAfresh(|s.spawned|, Step(s, input))
  {
    var e, now, finished := input.event, input.now, input.sampleFinished;
    StepKeepsBooks(s, input);
    if e.Connection? {
      ConnectionStarts(s, e, finished);
    } else if e.Power? {
      PowerStarts(s, e.on, now, finished);
    } else if e.FanObserved? {
      FanStarts(s, e, now, finished);
    } else {
      ControlStarts(s, e, now, finished);
    }
  }

  /** In every run an event that invalidates the actor leaves a sample of its own running
    * exactly if the inputs engage it. */
  lemma FreshStartsSample(options: P.Options, inputs: seq<Input>, input: Input)
    requires Invalidates(Run(Fresh(options), inputs), input)
    ensures var n, t := |Run(Fresh(options), inputs).spawned|, Run(Fresh(options), inputs + [input]);
      && (SampleWork in t.workers <==> Engaged(inputs + [input]))
      && (SampleWork in t.workers ==> t.workers[SampleWork] > n)
  {
    InvalidationStartsAfresh(Run(Fresh(options), inputs), input);
    FlagsFollowTheInputs(options, inputs + [input]);
    RunExtends(Fresh(options), inputs, input);
  }

  /** A sample runs, and it is a new one unless one is still at work. */
  predicate Samples(s: ActorState, t: ActorState, finished: bool) {
    && SampleWork in t.workers
    && if SampleWork in s.workers && !finished then t.workers[SampleWork] == s.workers[SampleWork]
       else t.workers[SampleWork] > |s.spawned|
  }

  predicate SameSample(s: ActorState, t: ActorState) {
    && (SampleWork in t.workers <==> SampleWork in s.workers)
    && (SampleWork in s.workers ==> t.workers[SampleWork] == s.workers[SampleWork])
    && s.spawned <= t.spawned
  }

  lemma OthersLeaveTheSample(s: ActorState, target: Option<FanMode>, boundary: Option<real>)
    ensures SameSample(s, ScheduleTarget(s, target)) && SameSample(s, TimerIfNeeded(s, boundary))
  {
  }

  lemma AskingSamples(s: ActorState, finished: bool)
    ensures Samples(s, SampleIfAsked(s, true, finished), finished)
  {
  }

  lemma AdoptSamples(s: ActorState, r: P.PolicyResult, finished: bool)
    requires r.requestSample
    ensures Samples(s, Adopt(s, r, finished), finished)
  {
    var s0 := s.(policy := r.state, workers := s.workers - {TimerWork});
    var s1 := ScheduleTarget(s0, r.target);
    var s2 := SampleIfAsked(s1, true, finished);
    OthersLeaveTheSample(s0, r.target, None);
    AskingSamples(s1, finished);
    OthersLeaveTheSample(s2, None, r.nextBoundaryAt);
  }

  /** The running timer ends of its own accord, not before the time it slept until. */
  predicate TimerEndsDue(s: ActorState, input: Input) {
    var e := input.event;
    && e.WorkDone? && e.kind == TimerWork && !s.stopped && !LosesTimer(s, e) && input.now >= 0.0
    && TimerWork in s.workers && s.workers[TimerWork] == e.serial && 1 <= e.serial <= |s.spawned|
    && (s.spawned[e.serial - 1].until.Some? ==> input.now >= s.spawned[e.serial - 1].until.value)
  }

  lemma DueTimerSamples(s: ActorState, input: Input)
    requires TimerRuns(s) && TimerEndsDue(s, input) && s.options.enabled
    ensures Samples(s, Step(s, input), input.sampleFinished)
  {
    var s1 := s.(workers := s.workers - {TimerWork});
    var r := P.EvaluateBoundary(s.policy, s.options, input.now);
    T.FiringMakesProgress(s.policy, s.options, input.now);
    AdoptSamples(s1, r, input.sampleFinished);
    assert Step(s, input) == Adopt(s1, r, input.sampleFinished);
  }

  /** In every such run a timer that ends at or after the time it slept until leaves a sample
    * running, a new one unless one is still at work. */
  lemma DueTimersSample(options: P.Options, inputs: seq<Input>, s: ActorState, input: Input)
    requires KeepsTimers(Fresh(options), inputs) && s == Run(Fresh(options), inputs)
    requires TimerEndsDue(s, input) && s.options.enabled
    ensures Samples(s, Step(s, input), input.sampleFinished)
  {
    TimersFollowTheBoundary(options, inputs);
    DueTimerSamples(s, input);
  }
}
