/** What the Custom Auto actor is at any time follows from its inputs alone, and while it
  * is not engaged it starts nothing. */
module CustomAutoEngagement {
  import opened Models
  import P = CustomAutoPolicy
  import opened CustomAutoActor

  // ---- scans of the inputs ----

  /** The actor has been shut down: later inputs do not count. */
  predicate Over(inputs: seq<Input>) {
    exists i :: 0 <= i < |inputs| && inputs[i].event.Shutdown?
  }

  /** The newest connection generation announced. */
  function Announced(inputs: seq<Input>): int {
    if inputs == [] then 0
    else
      var before, e := inputs[..|inputs| - 1], inputs[|inputs| - 1].event;
      if !Over(before) && e.Connection? && e.generation > Announced(before) then e.generation else Announced(before)
  }

  /** A physical fan change to a mode of its own, seen on the current connection. */
  predicate TakenOver(before: seq<Input>, e: Event) {
    e.FanObserved? && e.physical && e.mode != Auto && e.generation == Announced(before)
  }

  /** The event gives the fan back. */
  predicate Releases(before: seq<Input>, e: Event) {
    e.Yield? || e.Shutdown? || TakenOver(before, e)
  }

  /** Custom Auto owns the fan: it has been activated and has not given it back since. */
  predicate Owns(inputs: seq<Input>) {
    inputs != [] && (
      var before, e := inputs[..|inputs| - 1], inputs[|inputs| - 1].event;
      if Over(before) then Owns(before) else e.Activate? || (Owns(before) && !Releases(before, e)))
  }

  /** The latest report of the current connection says it is up. */
  predicate Connected(inputs: seq<Input>) {
    inputs != [] && (
      var before, e := inputs[..|inputs| - 1], inputs[|inputs| - 1].event;
      if !Over(before) && e.Connection? && e.generation >= Announced(before) then e.up else Connected(before))
  }

  /** The power the purifier last reported, after a power-off included. */
  predicate PoweredOn(inputs: seq<Input>) {
    inputs != [] && (
      var before, e := inputs[..|inputs| - 1], inputs[|inputs| - 1].event;
      if Over(before) then PoweredOn(before)
      else if e.Power? then e.on
      else if e.FinishPowerOff? then e.reported == Some(true)
      else PoweredOn(before))
  }

  /** A power-off has begun and neither finished nor been overtaken by a change of owner. */
  predicate PoweringOff(inputs: seq<Input>) {
    inputs != [] && (
      var before, e := inputs[..|inputs| - 1], inputs[|inputs| - 1].event;
      if Over(before) then PoweringOff(before)
      else e.BeginPowerOff? || (PoweringOff(before) && !e.FinishPowerOff? && !e.Activate? && !e.Yield?))
  }

  /** The options last configured. */
  function Configured(options: P.Options, inputs: seq<Input>): P.Options {
    if inputs == [] then options
    else
      var before, e := inputs[..|inputs| - 1], inputs[|inputs| - 1].event;
      if !Over(before) && e.Reconfigure? then e.options else Configured(options, before)
  }

  predicate Engaged(inputs: seq<Input>) {
    Owns(inputs) && Connected(inputs) && PoweredOn(inputs) && !PoweringOff(inputs)
  }

  // ---- the actor's fields are the scans ----

  /** What the fields of an actor say of its inputs. */
  predicate Reflects(s: ActorState, options: P.Options, inputs: seq<Input>) {
    && s.stopped == Over(inputs) && s.connection == Announced(inputs) && s.active == Owns(inputs)
    && s.available == Connected(inputs) && s.powered == PoweredOn(inputs) && s.powerTransition == PoweringOff(inputs)
    && s.options == Configured(options, inputs)
  }

  lemma OverNext(inputs: seq<Input>, input: Input)
    ensures Over(inputs + [input]) <==> Over(inputs) || input.event.Shutdown?
    ensures (inputs + [input])[..|inputs|] == inputs
  {
    var all := inputs + [input];
    if i :| 0 <= i < |inputs| && inputs[i].event.Shutdown? {
      assert all[i].event.Shutdown?;
    }
    if input.event.Shutdown? {
      assert all[|inputs|].event.Shutdown?;
    }
  }

  /** The fields that say whether the actor may act. */
  predicate SameStanding(s: ActorState, t: ActorState) {
    && t.stopped == s.stopped && t.connection == s.connection && t.active == s.active && t.available == s.available
    && t.powered == s.powered && t.powerTransition == s.powerTransition && t.options == s.options
  }

  lemma SamplingKeepsStanding(s: ActorState, finished: bool, asked: bool)
    ensures SameStanding(s, RequestFresh(s, finished)) && SameStanding(s, SampleIfAsked(s, asked, finished))
  {
  }

  lemma SchedulingKeepsStanding(s: ActorState, target: Option<FanMode>)
    ensures SameStanding(s, ScheduleTarget(s, target))
  {
  }

  lemma TimingKeepsStanding(s: ActorState, boundary: Option<real>)
    ensures SameStanding(s, TimerIfNeeded(s, boundary))
  {
  }

  lemma AdoptKeepsStanding(s: ActorState, r: P.PolicyResult, finished: bool)
    ensures SameStanding(s, Adopt(s, r, finished))
  {
    var s0 := s.(policy := r.state, workers := s.workers - {TimerWork});
    var s1 := ScheduleTarget(s0, r.target);
    var s2 := SampleIfAsked(s1, r.requestSample, finished);
    SchedulingKeepsStanding(s0, r.target);
    SamplingKeepsStanding(s1, finished, r.requestSample);
    TimingKeepsStanding(s2, r.nextBoundaryAt);
  }

  lemma ConfirmedKeepsStanding(s: ActorState, mode: FanMode, now: real, finished: bool)
    ensures SameStanding(s, Confirmed(s, mode, now, finished))
  {
    var c := P.ConfirmPending(s.policy, mode);
    if c.Ok? {
      var r := P.ReconcileDeferred(c.value, s.options);
      AdoptKeepsStanding(s, r, finished);
      var s1 := Adopt(s, r, finished);
      AdoptKeepsStanding(s1, P.EvaluateBoundary(s1.policy, s.options, now), finished);
    }
  }

  lemma CommandKeepsStanding(s: ActorState, e: Event, now: real, finished: bool)
    requires e.WorkDone? && e.kind == CommandWork
    ensures SameStanding(s, OnWorkDone(s, e, now, finished))
  {
    var s1 := s.(workers := s.workers - {CommandWork});
    SchedulingKeepsStanding(s1, s.policy.pendingTarget);
    if e.target.Some? {
      ConfirmedKeepsStanding(s1, e.target.value, now, finished);
    }
  }

  lemma WorkKeepsStanding(s: ActorState, e: Event, now: real, finished: bool)
    requires e.WorkDone?
    ensures SameStanding(s, OnWorkDone(s, e, now, finished))
  {
    if e.kind == TimerWork {
      AdoptKeepsStanding(s.(workers := s.workers - {TimerWork}), P.EvaluateBoundary(s.policy, s.options, now), finished);
    } else if e.kind == CommandWork {
      CommandKeepsStanding(s, e, now, finished);
    }
  }

  lemma ReadingKeepsStanding(s: ActorState, e: Event, finished: bool)
    requires e.AirQuality?
    ensures SameStanding(s, OnAirQuality(s, e, finished))
  {
    AdoptKeepsStanding(s.(lastSeen := Some(e.revision)),
                       P.EvaluateObservation(s.policy, s.options, e.pm25, e.revision, e.at), finished);
  }

  /** Invalidating leaves the actor's standing alone. */
  lemma InvalidationKeepsStanding(s: ActorState, at: real, finished: bool)
    ensures SameStanding(s, Invalidate(s, at)) && SameStanding(s, RequestFresh(Invalidate(s, at), finished))
  {
    SamplingKeepsStanding(Invalidate(s, at), finished, false);
  }

  /** What the events that matter do to the standing. */
  lemma ControlStands(s: ActorState, e: Event, now: real, finished: bool)
    requires IsControl(e)
    ensures var t := OnControl(s, e, now, finished);
      && t.stopped == (s.stopped || e.Shutdown?) && t.connection == s.connection && t.available == s.available
      && t.active == (e.Activate? || (s.active && !e.Yield? && !e.Shutdown?))
      && t.powered == (if e.FinishPowerOff? then e.reported == Some(true) else s.powered)
      && t.powerTransition == (e.BeginPowerOff? || (s.powerTransition && !e.FinishPowerOff? && !e.Activate? && !e.Yield?))
      && t.options == if e.Reconfigure? then e.options else s.options
  {
    match e
    case Activate => InvalidationKeepsStanding(s.(active := true, powerTransition := false), now, finished);
    case FinishPowerOff(reported) =>
      InvalidationKeepsStanding(s.(powerTransition := false, powered := reported.GetOr(false)), now, finished);
    case Reconfigure(options) =>
      InvalidationKeepsStanding(s.(configuration := s.configuration + 1, options := options), now, finished);
    case _ =>
  }

  lemma ConnectionStands(s: ActorState, e: Event, finished: bool)
    requires e.Connection?
    ensures SameStanding(if e.generation < s.connection then s else s.(connection := e.generation, available := e.up),
                         OnConnection(s, e, finished))
  {
    InvalidationKeepsStanding(s.(lastSeen := if e.generation != s.connection then None else s.lastSeen,
                                 connection := e.generation, available := e.up), e.seenAt, finished);
  }

  lemma PowerStands(s: ActorState, on: bool, now: real, finished: bool)
    ensures SameStanding(s.(powered := on), OnPower(s, on, now, finished))
  {
    InvalidationKeepsStanding(s.(powered := on), now, finished);
  }

  lemma FanStands(s: ActorState, e: Event, now: real, finished: bool)
    requires e.FanObserved?
    ensures SameStanding(if e.generation == s.connection && e.physical && e.mode != Auto then s.(active := false) else s,
                         OnFan(s, e, now, finished))
  {
    InvalidationKeepsStanding(s, now, finished);
  }

  lemma ConnectionReflects(s: ActorState, options: P.Options, inputs: seq<Input>, input: Input)
    requires Reflects(s, options, inputs) && !s.stopped && input.event.Connection?
    ensures Reflects(Step(s, input), options, inputs + [input])
  {
    OverNext(inputs, input);
    ConnectionStands(s, input.event, input.sampleFinished);
  }

  lemma PowerReflects(s: ActorState, options: P.Options, inputs: seq<Input>, input: Input)
    requires Reflects(s, options, inputs) && !s.stopped && input.event.Power?
    ensures Reflects(Step(s, input), options, inputs + [input])
  {
    OverNext(inputs, input);
    PowerStands(s, input.event.on, input.now, input.sampleFinished);
  }

  lemma FanReflects(s: ActorState, options: P.Options, inputs: seq<Input>, input: Input)
    requires Reflects(s, options, inputs) && !s.stopped && input.event.FanObserved?
    ensures Reflects(Step(s, input), options, inputs + [input])
  {
    OverNext(inputs, input);
    FanStands(s, input.event, input.now, input.sampleFinished);
  }

  /** What a control does to the scans. */
  lemma ControlScans(options: P.Options, inputs: seq<Input>, input: Input, all: seq<Input>)
    requires !Over(inputs) && IsControl(input.event) && all == inputs + [input]
    ensures var e := input.event;
      && Over(all) == e.Shutdown? && Announced(all) == Announced(inputs) && Connected(all) == Connected(inputs)
      && Owns(all) == (e.Activate? || (Owns(inputs) && !e.Yield? && !e.Shutdown?))
      && PoweredOn(all) == (if e.FinishPowerOff? then e.reported == Some(true) else PoweredOn(inputs))
      && PoweringOff(all) ==
           (e.BeginPowerOff? || (PoweringOff(inputs) && !e.FinishPowerOff? && !e.Activate? && !e.Yield?))
      && Configured(options, all) == if e.Reconfigure? then e.options else Configured(options, inputs)
  {
    OverNext(inputs, input);
  }

  lemma ControlReflects(s: ActorState, options: P.Options, inputs: seq<Input>, input: Input)
    requires Reflects(s, options, inputs) && !s.stopped && IsControl(input.event)
    ensures Reflects(Step(s, input), options, inputs + [input])
  {
    ControlScans(options, inputs, input, inputs + [input]);
    ControlStands(s, input.event, input.now, input.sampleFinished);
    assert Step(s, input) == OnControl(s, input.event, input.now, input.sampleFinished);
  }

  lemma StepReflects(s: ActorState, options: P.Options, inputs: seq<Input>, input: Input)
    requires Reflects(s, options, inputs)
    ensures Reflects(Step(s, input), options, inputs + [input])
  {
    OverNext(inputs, input);
    if s.stopped {
    } else if input.event.AirQuality? {
      ReadingKeepsStanding(s, input.event, input.sampleFinished);
    } else if input.event.WorkDone? {
      WorkKeepsStanding(s, input.event, input.now, input.sampleFinished);
    } else if input.event.Connection? {
      ConnectionReflects(s, options, inputs, input);
    } else if input.event.Power? {
      PowerReflects(s, options, inputs, input);
    } else if input.event.FanObserved? {
      FanReflects(s, options, inputs, input);
    } else {
      ControlReflects(s, options, inputs, input);
    }
  }

  /** In every run the actor's flags, connection and options are what the inputs say. */
  lemma {:induction false} FlagsFollowTheInputs(options: P.Options, inputs: seq<Input>)
    ensures Reflects(Run(Fresh(options), inputs), options, inputs)
    ensures Usable(Run(Fresh(options), inputs)) <==> Engaged(inputs)
  {
    if inputs != [] {
      var before, last := inputs[..|inputs| - 1], inputs[|inputs| - 1];
      FlagsFollowTheInputs(options, before);
      StepReflects(Run(Fresh(options), before), options, before, last);
      assert before + [last] == inputs;
    }
  }

  // ---- an actor that is not engaged starts nothing ----

  /** An actor that may not act runs no workers and has a fresh policy, whatever its past. */
  lemma ReadingRests(s: ActorState, e: Event, finished: bool)
    requires e.AirQuality? && IdleWhenUnusable(s) && !Usable(s)
    ensures var t := OnAirQuality(s, e, finished); t.spawned == s.spawned && t.workers == s.workers && t.policy == s.policy
  {
  }

  lemma WorkRests(s: ActorState, e: Event, now: real, finished: bool)
    requires e.WorkDone? && IdleWhenUnusable(s) && !Usable(s)
    ensures OnWorkDone(s, e, now, finished) == s
  {
  }

  lemma InvalidationRests(s: ActorState, at: real, finished: bool)
    requires !Usable(s)
    ensures RequestFresh(Invalidate(s, at), finished) == Invalidate(s, at) && IdleWhenUnusable(Invalidate(s, at))
  {
  }

  lemma ControlRests(s: ActorState, e: Event, now: real, finished: bool)
    requires IsControl(e) && !Usable(OnControl(s, e, now, finished))
    ensures var t := OnControl(s, e, now, finished); IdleWhenUnusable(t) && t.spawned == s.spawned
  {
    ControlStands(s, e, now, finished);
    match e
    case Activate => InvalidationRests(s.(active := true, powerTransition := false), now, finished);
    case FinishPowerOff(reported) =>
      InvalidationRests(s.(powerTransition := false, powered := reported.GetOr(false)), now, finished);
    case Reconfigure(options) =>
      InvalidationRests(s.(configuration := s.configuration + 1, options := options), now, finished);
    case _ =>
  }

  lemma ConnectionRests(s: ActorState, e: Event, finished: bool)
    requires e.Connection? && IdleWhenUnusable(s) && !Usable(OnConnection(s, e, finished))
    ensures var t := OnConnection(s, e, finished); IdleWhenUnusable(t) && t.spawned == s.spawned
  {
    var s1 := s.(lastSeen := if e.generation != s.connection then None else s.lastSeen,
                 connection := e.generation, available := e.up);
    ConnectionStands(s, e, finished);
    if !Usable(s1) {
      InvalidationRests(s1, e.seenAt, finished);
    }
  }

  lemma PowerRests(s: ActorState, on: bool, now: real, finished: bool)
    requires IdleWhenUnusable(s) && !Usable(OnPower(s, on, now, finished))
    ensures var t := OnPower(s, on, now, finished); IdleWhenUnusable(t) && t.spawned == s.spawned
  {
    PowerStands(s, on, now, finished);
    InvalidationRests(s.(powered := on), now, finished);
  }

  lemma FanRests(s: ActorState, e: Event, now: real, finished: bool)
    requires e.FanObserved? && IdleWhenUnusable(s) && !Usable(OnFan(s, e, now, finished))
    ensures var t := OnFan(s, e, now, finished); IdleWhenUnusable(t) && t.spawned == s.spawned
  {
    FanStands(s, e, now, finished);
    if !Usable(s) {
      InvalidationRests(s, now, finished);
    }
  }

  lemma StepRests(s: ActorState, input: Input)
    requires IdleWhenUnusable(s)
    ensures var t := Step(s, input);
      IdleWhenUnusable(t) && (!Usable(t) ==> t.spawned == s.spawned)
  {
    var e, now, finished := input.event, input.now, input.sampleFinished;
    if s.stopped || Usable(Step(s, input)) {
    } else if e.AirQuality? {
      ReadingKeepsStanding(s, e, finished);
      ReadingRests(s, e, finished);
    } else if e.WorkDone? {
      WorkKeepsStanding(s, e, now, finished);
      WorkRests(s, e, now, finished);
    } else if e.Connection? {
      ConnectionRests(s, e, finished);
    } else if e.Power? {
      PowerRests(s, e.on, now, finished);
    } else if e.FanObserved? {
      FanRests(s, e, now, finished);
    } else {
      ControlRests(s, e, now, finished);
    }
  }

  lemma {:induction false} RunRests(options: P.Options, inputs: seq<Input>)
    ensures IdleWhenUnusable(Run(Fresh(options), inputs))
  {
    if inputs != [] {
      RunRests(options, inputs[..|inputs| - 1]);
      StepRests(Run(Fresh(options), inputs[..|inputs| - 1]), inputs[|inputs| - 1]);
    }
  }

  lemma RestingInputStartsNothing(options: P.Options, before: seq<Input>, input: Input)
    requires !Engaged(before + [input])
    ensures Run(Fresh(options), before + [input]).spawned == Run(Fresh(options), before).spawned
  {
    var s := Run(Fresh(options), before);
    assert (before + [input])[..|before|] == before;
    FlagsFollowTheInputs(options, before + [input]);
    RunRests(options, before);
    StepRests(s, input);
  }

  /** In every run, as long as the inputs do not engage the actor, no worker is started. */
  lemma {:induction false} RestingActorsStartNothing(options: P.Options, inputs: seq<Input>, later: seq<Input>)
    requires forall k | 0 < k <= |later| :: !Engaged(inputs + later[..k])
    ensures Run(Fresh(options), inputs + later).spawned == Run(Fresh(options), inputs).spawned
  {
    if later == [] {
      assert inputs + later == inputs;
    } else {
      var n := |later| - 1;
      forall k | 0 < k <= n
        ensures !Engaged(inputs + later[..n][..k])
      {
        assert later[..n][..k] == later[..k];
      }
      RestingActorsStartNothing(options, inputs, later[..n]);
      assert inputs + later[..n + 1] == inputs + later[..n] + [later[n]];
      RestingInputStartsNothing(options, inputs + later[..n], later[n]);
      assert later[..n + 1] == later;
    }
  }

  // ---- giving the fan back, and powering off ----

  lemma {:induction false} ReleaseLasts(inputs: seq<Input>, later: seq<Input>)
    requires !Owns(inputs) && forall x | x in later :: !x.event.Activate?
    ensures !Owns(inputs + later)
  {
    if later == [] {
      assert inputs + later == inputs;
    } else {
      var n := |later| - 1;
      ReleaseLasts(inputs, later[..n]);
      assert (inputs + later)[..|inputs| + n] == inputs + later[..n];
      assert later[n] in later;
    }
  }

  /** Deactivation, an override, a shutdown or a physical change of the fan stops the actor:
    * in every run, whatever readings, timers, connections and power reports follow, nothing
    * is started until the next activation. */
  lemma ReleasedActorsStartNothing(options: P.Options, inputs: seq<Input>, release: Input, later: seq<Input>)
    requires Releases(inputs, release.event) && forall x | x in later :: !x.event.Activate?
    ensures Run(Fresh(options), inputs + [release] + later).spawned == Run(Fresh(options), inputs).spawned
  {
    OverNext(inputs, release);
    if Over(inputs) {
      StoppedForGood(options, inputs, [release] + later);
      assert inputs + ([release] + later) == inputs + [release] + later;
    } else {
      assert !Owns(inputs + [release]);
      var all := [release] + later;
      forall k | 0 < k <= |all|
        ensures !Engaged(inputs + all[..k])
      {
        ReleaseLasts(inputs + [release], later[..k - 1]);
        assert inputs + all[..k] == inputs + [release] + later[..k - 1];
      }
      RestingActorsStartNothing(options, inputs, all);
      assert inputs + all == inputs + [release] + later;
    }
  }

  lemma {:induction false} StoppedForGood(options: P.Options, inputs: seq<Input>, later: seq<Input>)
    requires Over(inputs)
    ensures Run(Fresh(options), inputs + later) == Run(Fresh(options), inputs)
  {
    if later == [] {
      assert inputs + later == inputs;
    } else {
      var n := |later| - 1;
      StoppedForGood(options, inputs, later[..n]);
      FlagsFollowTheInputs(options, inputs);
      assert (inputs + later)[..|inputs| + n] == inputs + later[..n];
    }
  }

  predicate EndsPowerOff(e: Event) {
    e.FinishPowerOff? || e.Activate? || e.Yield?
  }

  lemma {:induction false} PowerOffLasts(inputs: seq<Input>, later: seq<Input>)
    requires PoweringOff(inputs) && forall x | x in later :: !EndsPowerOff(x.event)
    ensures PoweringOff(inputs + later)
  {
    if later == [] {
      assert inputs + later == inputs;
    } else {
      var n := |later| - 1;
      PowerOffLasts(inputs, later[..n]);
      assert (inputs + later)[..|inputs| + n] == inputs + later[..n];
      assert later[n] in later;
    }
  }

  /** From the beginning of a power-off on nothing is started until it has finished or the
    * owner of the fan changes. */
  lemma PoweringOffStartsNothing(options: P.Options, inputs: seq<Input>, off: Input, later: seq<Input>)
    requires off.event.BeginPowerOff? && forall x | x in later :: !EndsPowerOff(x.event)
    ensures Run(Fresh(options), inputs + [off] + later).spawned == Run(Fresh(options), inputs).spawned
  {
    OverNext(inputs, off);
    var all := [off] + later;
    assert inputs + all == inputs + [off] + later;
    if Over(inputs) {
      StoppedForGood(options, inputs, all);
    } else {
      forall k | 0 < k <= |all|
        ensures !Engaged(inputs + all[..k])
      {
        PowerOffLasts(inputs + [off], later[..k - 1]);
        assert inputs + all[..k] == inputs + [off] + later[..k - 1];
      }
      RestingActorsStartNothing(options, inputs, all);
    }
  }
}
