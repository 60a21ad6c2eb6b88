/** The commands the actor sends are those of the policy: the actor's policy is a run of
  * the policy functions since the last invalidation, and every command worker carries a
  * target that such a run emits. */
module CustomAutoCommands {
  import opened Models
  import P = CustomAutoPolicy
  import H = CustomAutoHistory
  import R = CustomAutoRetry
  import opened CustomAutoActor
  import opened CustomAutoRuns

  /** A completion of the actor's own current work that it acts upon. */
  predicate Completes(s: ActorState, e: Event) {
    e.WorkDone? && e.kind in s.workers && s.workers[e.kind] == e.serial && !e.cancelled && e.token == CurrentToken(s)
  }

  /** The policy operations that an input amounts to, if it does not invalidate. */
  function Moves(s: ActorState, input: Input): seq<P.Op> {
    var e := input.event;
    if s.stopped then []
    else if ReachesPolicy(s, e) then [P.Observe(e.pm25, e.revision, e.at)]
    else if !Completes(s, e) then []
    else if e.kind == TimerWork then [P.Boundary(input.now)]
    else if e.kind != CommandWork || e.target != s.policy.pendingTarget then []
    else if e.target.Some? && e.succeeded then
      if P.ConfirmPending(s.policy, e.target.value).Ok? then [P.Acknowledge(e.target.value), P.Boundary(input.now)] else []
    else [P.Fail]
  }

  /** The policy operations since the latest invalidation. */
  function Played(s: ActorState, inputs: seq<Input>): seq<P.Op> {
    if inputs == [] then []
    else
      var before, last := inputs[..|inputs| - 1], inputs[|inputs| - 1];
      if Invalidates(Run(s, before), last) then [] else Played(s, before) + Moves(Run(s, before), last)
  }

  // ---- the policy of the actor is a run of the policy ----

  predicate SamePolicy(s: ActorState, t: ActorState) {
    t.policy == s.policy && t.options == s.options
  }

  lemma SchedulingKeepsPolicy(s: ActorState, target: Option<FanMode>, boundary: Option<real>)
    ensures SamePolicy(s, ScheduleTarget(s, target)) && SamePolicy(s, TimerIfNeeded(s, boundary))
  {
  }

  lemma SamplingKeepsPolicy(s: ActorState, asked: bool, finished: bool)
    ensures SamePolicy(s, SampleIfAsked(s, asked, finished))
  {
  }

  lemma AdoptsPolicy(s: ActorState, r: P.PolicyResult, finished: bool)
    ensures Adopt(s, r, finished).policy == r.state && Adopt(s, r, finished).options == s.options
  {
    var s0 := s.(policy := r.state, workers := s.workers - {TimerWork});
    var s1 := ScheduleTarget(s0, r.target);
    var s2 := SampleIfAsked(s1, r.requestSample, finished);
    SchedulingKeepsPolicy(s0, r.target, None);
    SamplingKeepsPolicy(s1, r.requestSample, finished);
    SchedulingKeepsPolicy(s2, None, r.nextBoundaryAt);
  }

  /** What the policy functions make of at most two operations. */
  function After(s: P.PolicyState, o: P.Options, ops: seq<P.Op>): P.PolicyState
    requires |ops| <= 2
  {
    if |ops| == 0 then s
    else if |ops| == 1 then P.Step(s, o, ops[0]).state
    else P.Step(P.Step(s, o, ops[0]).state, o, ops[1]).state
  }

  /** s leads to t by one operation. */
  predicate Leads(o: P.Options, s: P.PolicyState, op: P.Op, t: P.PolicyState) {
    P.Step(s, o, op).state == t
  }

  lemma OneMoreMove(s: P.PolicyState, o: P.Options, ops: seq<P.Op>, op: P.Op, t: P.PolicyState)
    requires Leads(o, P.Run(s, o, ops), op, t)
    ensures P.Run(s, o, ops + [op]) == t
  {
    H.RunExtends(s, o, ops, op);
  }

  lemma OneMove(s: P.PolicyState, o: P.Options, ops: seq<P.Op>, d: P.PolicyState, more: seq<P.Op>, t: P.PolicyState)
    requires |more| == 1 && d == P.Run(s, o, ops) && Leads(o, d, more[0], t)
    ensures P.Run(s, o, ops + more) == t
  {
    OneMoreMove(s, o, ops, more[0], t);
    assert ops + more == ops + [more[0]];
  }

  lemma TwoMoves(s: P.PolicyState, o: P.Options, ops: seq<P.Op>, d: P.PolicyState, more: seq<P.Op>,
                 t: P.PolicyState, u: P.PolicyState)
    requires |more| == 2 && d == P.Run(s, o, ops) && Leads(o, d, more[0], t) && Leads(o, t, more[1], u)
    ensures P.Run(s, o, ops + more) == u
  {
    OneMoreMove(s, o, ops, more[0], t);
    OneMoreMove(s, o, ops + [more[0]], more[1], u);
    assert ops + more == ops + [more[0]] + [more[1]];
  }

  lemma RunMoves(s: P.PolicyState, o: P.Options, ops: seq<P.Op>, d: P.PolicyState, more: seq<P.Op>)
    requires |more| <= 2 && d == P.Run(s, o, ops)
    ensures P.Run(s, o, ops + more) == After(d, o, more)
  {
    if |more| == 0 {
      assert ops + more == ops;
    } else {
      var t := P.Step(d, o, more[0]).state;
      if |more| == 1 {
        OneMove(s, o, ops, d, more, t);
      } else {
        TwoMoves(s, o, ops, d, more, t, P.Step(t, o, more[1]).state);
      }
    }
  }

  lemma ReadingMoves(s: ActorState, input: Input)
    requires input.event.AirQuality? && !s.stopped
    ensures OnAirQuality(s, input.event, input.sampleFinished).policy == After(s.policy, s.options, Moves(s, input))
    ensures OnAirQuality(s, input.event, input.sampleFinished).options == s.options
  {
    var e := input.event;
    if ReachesPolicy(s, e) {
      AdoptsPolicy(s.(lastSeen := Some(e.revision)),
                   P.EvaluateObservation(s.policy, s.options, e.pm25, e.revision, e.at), input.sampleFinished);
    }
  }

  lemma ConfirmationMoves(s: ActorState, mode: FanMode, now: real, finished: bool)
    requires P.ConfirmPending(s.policy, mode).Ok?
    ensures var t := Confirmed(s, mode, now, finished);
      t.policy == After(s.policy, s.options, [P.Acknowledge(mode), P.Boundary(now)]) && t.options == s.options
  {
    var c := P.ConfirmPending(s.policy, mode).value;
    var r := P.ReconcileDeferred(c, s.options);
    AdoptsPolicy(s, r, finished);
    var s1 := Adopt(s, r, finished);
    AdoptsPolicy(s1, P.EvaluateBoundary(s1.policy, s.options, now), finished);
  }

  lemma CommandMoves(s: ActorState, input: Input)
    requires Completes(s, input.event) && input.event.kind == CommandWork && !s.stopped
    ensures OnWorkDone(s, input.event, input.now, input.sampleFinished).policy == After(s.policy, s.options, Moves(s, input))
    ensures OnWorkDone(s, input.event, input.now, input.sampleFinished).options == s.options
  {
    var e := input.event;
    if e.target == s.policy.pendingTarget && e.target.Some? && e.succeeded {
      if P.ConfirmPending(s.policy, e.target.value).Ok? {
        ConfirmationMoves(s.(workers := s.workers - {CommandWork}), e.target.value, input.now, input.sampleFinished);
      }
    }
  }

  lemma TimerMoves(s: ActorState, input: Input)
    requires Completes(s, input.event) && input.event.kind == TimerWork && !s.stopped
    ensures OnWorkDone(s, input.event, input.now, input.sampleFinished).policy == After(s.policy, s.options, Moves(s, input))
    ensures OnWorkDone(s, input.event, input.now, input.sampleFinished).options == s.options
  {
    AdoptsPolicy(s.(workers := s.workers - {TimerWork}), P.EvaluateBoundary(s.policy, s.options, input.now),
                 input.sampleFinished);
  }

  lemma CompletionMoves(s: ActorState, input: Input)
    requires input.event.WorkDone? && !s.stopped
    ensures OnWorkDone(s, input.event, input.now, input.sampleFinished).policy == After(s.policy, s.options, Moves(s, input))
    ensures OnWorkDone(s, input.event, input.now, input.sampleFinished).options == s.options
  {
    if Completes(s, input.event) {
      if input.event.kind == TimerWork {
        TimerMoves(s, input);
      } else if input.event.kind == CommandWork {
        CommandMoves(s, input);
      }
    }
  }

  lemma OtherInputsMoveNothing(s: ActorState, input: Input)
    requires !Invalidates(s, input) && !input.event.AirQuality? && !input.event.WorkDone?
    ensures Step(s, input).policy == s.policy && Step(s, input).options == s.options && Moves(s, input) == []
  {
  }

  lemma StepMoves(s: ActorState, input: Input)
    ensures if Invalidates(s, input) then Step(s, input).policy == P.InitialState(None)
            else Step(s, input).policy == After(s.policy, s.options, Moves(s, input)) && Step(s, input).options == s.options
  {
    if s.stopped {
    } else if Invalidates(s, input) {
      StepKeepsBooks(s, input);
    } else if input.event.AirQuality? {
      ReadingMoves(s, input);
    } else if input.event.WorkDone? {
      CompletionMoves(s, input);
    } else {
      OtherInputsMoveNothing(s, input);
    }
  }

  /** The actor's policy is the run of the operations played since the latest
    * invalidation, from a policy that knows no level, under the current options. */
  lemma {:induction false} PolicyIsPlayed(options: P.Options, inputs: seq<Input>)
    ensures var s := Run(Fresh(options), inputs);
      s.policy == P.Run(P.InitialState(None), s.options, Played(Fresh(options), inputs))
  {
    if inputs != [] {
      var before, last := inputs[..|inputs| - 1], inputs[|inputs| - 1];
      var s := Run(Fresh(options), before);
      PolicyIsPlayed(options, before);
      StepMoves(s, last);
RunMoves(P.InitialState(None), s.options, Played(Fresh(options), before), s.policy, Moves(s, last));
    }
  }

  // ---- what a command worker carries ----

  /** Every command worker spawned on the way from s to t carries this target. */
  predicate SpawnsOnly(s: ActorState, t: ActorState, target: Option<FanMode>) {
    && s.spawned <= t.spawned
    && forall i | |s.spawned| <= i < |t.spawned| && t.spawned[i].kind == CommandWork ::
         target.Some? && t.spawned[i].target == target
  }

  lemma SamplingSpawnsNoCommand(s: ActorState, asked: bool, boundary: Option<real>, finished: bool)
    ensures SpawnsOnly(s, SampleIfAsked(s, asked, finished), None)
    ensures SpawnsOnly(s, RequestFresh(s, finished), None)
    ensures SpawnsOnly(s, TimerIfNeeded(s, boundary), None)
  {
  }

  lemma SpawnsThen(s: ActorState, t: ActorState, u: ActorState, target: Option<FanMode>)
    requires SpawnsOnly(s, t, target) && SpawnsOnly(t, u, None)
    ensures SpawnsOnly(s, u, target)
  {
  }

  lemma AdoptSpawns(s: ActorState, r: P.PolicyResult, finished: bool)
    ensures SpawnsOnly(s, Adopt(s, r, finished), r.target)
  {
    var s0 := s.(policy := r.state, workers := s.workers - {TimerWork});
    var s1 := ScheduleTarget(s0, r.target);
    var s2 := SampleIfAsked(s1, r.requestSample, finished);
    assert SpawnsOnly(s, s1, r.target);
    SamplingSpawnsNoCommand(s1, r.requestSample, r.nextBoundaryAt, finished);
    SpawnsThen(s, s1, s2, r.target);
    SamplingSpawnsNoCommand(s2, r.requestSample, r.nextBoundaryAt, finished);
    SpawnsThen(s, s2, TimerIfNeeded(s2, r.nextBoundaryAt), r.target);
  }

  lemma ConfirmationSpawns(s: ActorState, mode: FanMode, now: real, finished: bool)
    requires P.ConfirmPending(s.policy, mode).Ok?
    ensures SpawnsOnly(s, Confirmed(s, mode, now, finished), P.Step(s.policy, s.options, P.Acknowledge(mode)).target)
  {
    var c := P.ConfirmPending(s.policy, mode).value;
    var r := P.ReconcileDeferred(c, s.options);
    AdoptSpawns(s, r, finished);
    var s1 := Adopt(s, r, finished);
    var b := P.EvaluateBoundary(s1.policy, s.options, now);
    AdoptSpawns(s1, b, finished);
    SpawnsThen(s, s1, Adopt(s1, b, finished), r.target);
  }

  /** The target of the first operation that an input amounts to; the second, a timer
    * firing, never has one. */
  function Emits(s: ActorState, input: Input): Option<FanMode> {
    var ops := Moves(s, input);
    if ops == [] then None else P.Step(s.policy, s.options, ops[0]).target
  }

  lemma ReadingSpawns(s: ActorState, input: Input)
    requires input.event.AirQuality? && !s.stopped
    ensures SpawnsOnly(s, OnAirQuality(s, input.event, input.sampleFinished), Emits(s, input))
  {
    var e := input.event;
    if ReachesPolicy(s, e) {
      AdoptSpawns(s.(lastSeen := Some(e.revision)),
                  P.EvaluateObservation(s.policy, s.options, e.pm25, e.revision, e.at), input.sampleFinished);
    }
  }

  lemma TimerSpawns(s: ActorState, input: Input)
    requires Completes(s, input.event) && input.event.kind == TimerWork && !s.stopped
    ensures SpawnsOnly(s, OnWorkDone(s, input.event, input.now, input.sampleFinished), Emits(s, input))
  {
    AdoptSpawns(s.(workers := s.workers - {TimerWork}), P.EvaluateBoundary(s.policy, s.options, input.now),
                input.sampleFinished);
  }

  lemma CommandSpawns(s: ActorState, input: Input)
    requires ActorInv(s) && Genuine(s, input.event)
    requires Completes(s, input.event) && input.event.kind == CommandWork && !s.stopped
    ensures SpawnsOnly(s, OnWorkDone(s, input.event, input.now, input.sampleFinished), Emits(s, input))
  {
    var e := input.event;
    CurrentCommandMatches(s, e);
    if e.succeeded {
      ConfirmationSpawns(s.(workers := s.workers - {CommandWork}), e.target.value, input.now, input.sampleFinished);
    }
  }

  lemma CompletionSpawns(s: ActorState, input: Input)
    requires ActorInv(s) && Genuine(s, input.event) && input.event.WorkDone? && !s.stopped
    ensures SpawnsOnly(s, OnWorkDone(s, input.event, input.now, input.sampleFinished), Emits(s, input))
  {
    if Completes(s, input.event) {
      if input.event.kind == TimerWork {
        TimerSpawns(s, input);
      } else if input.event.kind == CommandWork {
        CommandSpawns(s, input);
      }
    }
  }

  lemma InvalidationSpawns(s: ActorState, s0: ActorState, at: real, finished: bool)
    requires s0.spawned == s.spawned
    ensures SpawnsOnly(s, Invalidate(s0, at), None)
    ensures SpawnsOnly(s, RequestFresh(Invalidate(s0, at), finished), None)
  {
    SamplingSpawnsNoCommand(Invalidate(s0, at), false, None, finished);
  }

  lemma ControlSpawns(s: ActorState, e: Event, now: real, finished: bool)
    requires IsControl(e)
    ensures SpawnsOnly(s, OnControl(s, e, now, finished), None)
  {
    if e.Activate? {
      InvalidationSpawns(s, s.(active := true, powerTransition := false), now, finished);
    } else if e.FinishPowerOff? {
      InvalidationSpawns(s, s.(powerTransition := false, powered := e.reported.GetOr(false)), now, finished);
    } else if e.Reconfigure? {
      InvalidationSpawns(s, s.(configuration := s.configuration + 1, options := e.options), now, finished);
    }
  }

  lemma ConnectionSpawns(s: ActorState, e: Event, finished: bool)
    requires e.Connection?
    ensures SpawnsOnly(s, OnConnection(s, e, finished), None)
  {
    InvalidationSpawns(s, s.(lastSeen := if e.generation != s.connection then None else s.lastSeen,
                             connection := e.generation, available := e.up), e.seenAt, finished);
  }

  lemma FanSpawns(s: ActorState, e: Event, now: real, finished: bool)
    requires e.FanObserved?
    ensures SpawnsOnly(s, OnFan(s, e, now, finished), None)
  {
    InvalidationSpawns(s, s, now, finished);
    InvalidationSpawns(s, s.(active := false), now, finished);
  }

  lemma PowerSpawns(s: ActorState, on: bool, now: real, finished: bool)
    ensures SpawnsOnly(s, OnPower(s, on, now, finished), None)
  {
    InvalidationSpawns(s, s.(powered := on), now, finished);
  }

  lemma StepSpawns(s: ActorState, input: Input)
    requires ActorInv(s) && Genuine(s, input.event)
    ensures SpawnsOnly(s, Step(s, input), Emits(s, input))
  {
    var e := input.event;
    if s.stopped {
    } else if e.AirQuality? {
      ReadingSpawns(s, input);
    } else if e.WorkDone? {
      CompletionSpawns(s, input);
    } else if e.Connection? {
      ConnectionSpawns(s, e, input.sampleFinished);
    } else if e.Power? {
      PowerSpawns(s, e.on, input.now, input.sampleFinished);
    } else if e.FanObserved? {
      FanSpawns(s, e, input.now, input.sampleFinished);
    } else {
      ControlSpawns(s, e, input.now, input.sampleFinished);
    }
  }

  // ---- the commands of the actor are warranted ----

  /** The next input makes the actor spawn this command worker. */
  predicate Sends(options: P.Options, inputs: seq<Input>, input: Input, work: Work) {
    var s := Run(Fresh(options), inputs);
    && work.kind == CommandWork
    && exists i :: |s.spawned| <= i < |Step(s, input).spawned| && Step(s, input).spawned[i] == work
  }

  /** The work carries what the policy emits by this operation after those. */
  ghost predicate EmittedBy(s: ActorState, ops: seq<P.Op>, op: P.Op, work: Work) {
    && s.policy == P.Run(P.InitialState(None), s.options, ops)
    && work.target.Some? && P.Step(s.policy, s.options, op).target == work.target
  }

  lemma SpawnedIsEmitted(s: ActorState, input: Input, work: Work, i: nat)
    requires ActorInv(s) && Genuine(s, input.event) && work.kind == CommandWork
    requires |s.spawned| <= i < |Step(s, input).spawned| && Step(s, input).spawned[i] == work
    ensures Moves(s, input) != [] && work.target.Some?
    ensures P.Step(s.policy, s.options, Moves(s, input)[0]).target == work.target
  {
    StepSpawns(s, input);
  }

  /** Every command worker that the actor spawns in a run carries the target that the
    * policy emits, as the next operation after those played since the latest invalidation. */
  lemma SpawnedCommandsAreEmitted(options: P.Options, inputs: seq<Input>, input: Input, work: Work)
    requires Plausible(Fresh(options), inputs) && Genuine(Run(Fresh(options), inputs), input.event)
    requires Sends(options, inputs, input, work)
    ensures var s := Run(Fresh(options), inputs);
      Moves(s, input) != [] && EmittedBy(s, Played(Fresh(options), inputs), Moves(s, input)[0], work)
  {
    var s := Run(Fresh(options), inputs);
    ReachableActorsSatisfyInv(options, inputs);
    PolicyIsPlayed(options, inputs);
    var i :| |s.spawned| <= i < |Step(s, input).spawned| && Step(s, input).spawned[i] == work;
    SpawnedIsEmitted(s, input, work, i);
  }

  /** The readings evaluated since the latest invalidation warrant the target. */
  ghost predicate Warranted(s: ActorState, ops: seq<P.Op>, op: P.Op, target: FanMode) {
    H.HeldLevel(s.policy, op).Some? ==>
      H.TargetWarranted(s.options, H.Readings(P.InitialState(None), s.options, ops + [op]),
                        H.HeldLevel(s.policy, op).value, target)
  }

  /** The operation retries a failed command that the readings since its emission sustain. */
  ghost predicate SustainedRetry(s: ActorState, ops: seq<P.Op>, op: P.Op, target: FanMode) {
    H.HeldLevel(s.policy, op).Some? && H.RetryStep(s.policy, s.options, op) ==>
      && P.LevelForMode(target).Some?
      && R.Sustained(s.options, H.Readings(P.InitialState(None), s.options, ops + [op]),
                     R.Origin(P.InitialState(None), s.options, ops), H.HeldLevel(s.policy, op).value,
                     P.LevelForMode(target).value)
  }

  lemma EmittedIsWarranted(s: ActorState, ops: seq<P.Op>, op: P.Op, work: Work)
    requires EmittedBy(s, ops, op, work) && H.FailureFree(ops)
    ensures Warranted(s, ops, op, work.target.value)
  {
    H.CommandsAreWarranted(None, s.options, ops, op);
  }

  lemma EmittedIsWarrantedExactly(s: ActorState, ops: seq<P.Op>, op: P.Op, work: Work)
    requires EmittedBy(s, ops, op, work) && H.StaleFree(P.InitialState(None), s.options, ops)
    requires R.Forward(H.Readings(P.InitialState(None), s.options, ops + [op]))
    ensures Warranted(s, ops, op, work.target.value) <==> SustainedRetry(s, ops, op, work.target.value)
  {
    R.CommandsAreWarrantedExactly(None, s.options, ops, op);
  }

  /** In every run of the actor a command sent while no command has failed since the
    * latest invalidation is warranted by the readings evaluated since then. */
  lemma SentCommandsAreWarranted(options: P.Options, inputs: seq<Input>, input: Input, work: Work)
    requires Plausible(Fresh(options), inputs) && Genuine(Run(Fresh(options), inputs), input.event)
    requires Sends(options, inputs, input, work) && H.FailureFree(Played(Fresh(options), inputs))
    ensures var s := Run(Fresh(options), inputs);
      && Moves(s, input) != [] && work.target.Some?
      && Warranted(s, Played(Fresh(options), inputs), Moves(s, input)[0], work.target.value)
  {
    var s := Run(Fresh(options), inputs);
    SpawnedCommandsAreEmitted(options, inputs, input, work);
    EmittedIsWarranted(s, Played(Fresh(options), inputs), Moves(s, input)[0], work);
  }

  /** With failures: until a retry carries a contradicted dwell over, and on a clock that
    * never runs backwards, a sent command is warranted exactly if it is no retry or a
    * sustained one. */
  lemma SentCommandsAreWarrantedExactly(options: P.Options, inputs: seq<Input>, input: Input, work: Work)
    requires Plausible(Fresh(options), inputs) && Genuine(Run(Fresh(options), inputs), input.event)
    requires Sends(options, inputs, input, work)
    ensures var s := Run(Fresh(options), inputs); var ops := Played(Fresh(options), inputs);
      && Moves(s, input) != [] && work.target.Some?
      && (H.StaleFree(P.InitialState(None), s.options, ops)
          && R.Forward(H.Readings(P.InitialState(None), s.options, ops + [Moves(s, input)[0]])) ==>
            (Warranted(s, ops, Moves(s, input)[0], work.target.value)
             <==> SustainedRetry(s, ops, Moves(s, input)[0], work.target.value)))
  {
    var s := Run(Fresh(options), inputs);
    var ops := Played(Fresh(options), inputs);
    SpawnedCommandsAreEmitted(options, inputs, input, work);
    var op := Moves(s, input)[0];
    if H.StaleFree(P.InitialState(None), s.options, ops)
       && R.Forward(H.Readings(P.InitialState(None), s.options, ops + [op])) {
      EmittedIsWarrantedExactly(s, ops, op, work);
    }
  }
}
