/** The Custom Auto controller as the object it is: handlers that update its fields,
  * each proved to be one step of the actor. */
module CustomAutoController {
  import opened Models
  import opened CustomAutoPolicy
  import A = CustomAutoActor

  class Controller {
    var options: Options
    var active: bool
    var available: bool
    var powered: bool
    var powerTransition: bool
    var configurationGeneration: nat
    var activationGeneration: nat
    var connectionGeneration: int
    var policy: PolicyState
    var sampleBarrierRevision: Option<int>
    var sampleBarrierObservedAt: Option<real>
    var lastSeenAirRevision: Option<int>
    /** Serial number of the task running each kind of work. */
    var workers: map<A.Kind, nat>
    var workSerial: nat
    var stopped: bool
    /** What every worker spawned so far captured; serial n is entry n - 1. */
    ghost var spawned: seq<A.Work>

    ghost predicate Valid()
      reads this
    {
      workSerial == |spawned|
    }

    ghost function View(): A.ActorState
      reads this
    {
      A.ActorState(options, active, available, powered, powerTransition, configurationGeneration,
                   activationGeneration, connectionGeneration, policy, sampleBarrierRevision,
                   sampleBarrierObservedAt, lastSeenAirRevision, workers, spawned, stopped)
    }

    constructor (options: Options)
      ensures Valid() && View() == A.Fresh(options)
    {
      this.options := options;
      active, available, powered, powerTransition := false, false, false, false;
      configurationGeneration, activationGeneration, connectionGeneration := 0, 0, 0;
      policy := InitialState(None);
      sampleBarrierRevision, sampleBarrierObservedAt, lastSeenAirRevision := None, None, None;
      workers, workSerial, stopped := map[], 0, false;
      spawned := [];
    }

    predicate IsUsable()
      reads this
    {
      active && available && powered && !powerTransition
    }

    function Token(): A.Token
      reads this
    {
      A.Token(configurationGeneration, activationGeneration, connectionGeneration)
    }

    method Spawn(kind: A.Kind, target: Option<FanMode>, until: Option<real>)
      requires Valid()
      modifies this`workers, this`workSerial, this`spawned
      ensures Valid() && View() == A.Spawn(old(View()), kind, target, until)
    {
      if kind in workers {
        return;
      }
      workSerial := workSerial + 1;
      spawned := spawned + [A.Work(kind, Token(), target, until)];
      workers := workers[kind := workSerial];
    }

    method CancelKinds(kinds: set<A.Kind>)
      modifies this`workers
      ensures workers == old(workers) - kinds
    {
      workers := workers - kinds;
    }

    method RequestSample(finished: bool)
      requires Valid()
      modifies this`workers, this`workSerial, this`spawned
      ensures Valid() && View() == A.RequestSample(old(View()), finished)
    {
      if A.SampleWork in workers && !finished {
        return;
      }
      workers := workers - {A.SampleWork};
      Spawn(A.SampleWork, None, None);
    }

    method RequestFreshIfUsable(finished: bool)
      requires Valid()
      modifies this`workers, this`workSerial, this`spawned
      ensures Valid() && View() == A.RequestFresh(old(View()), finished)
    {
      if active && available && powered && !powerTransition {
        RequestSample(finished);
      }
    }

    method InvalidateOperational(barrierObservedAt: real)
      requires Valid()
      modifies this
      ensures Valid() && View() == A.Invalidate(old(View()), barrierObservedAt)
    {
      activationGeneration := activationGeneration + 1;
      sampleBarrierRevision := lastSeenAirRevision;
      if sampleBarrierObservedAt.None? {
        sampleBarrierObservedAt := Some(barrierObservedAt);
      } else {
        sampleBarrierObservedAt := Some(Max(sampleBarrierObservedAt.value, barrierObservedAt));
      }
      workers := map[];
      policy := InitialState(None);
    }

    /** Cancels the timer, then starts the command, the sample and the next timer the
      * result asks for. */
    method ApplyPolicyResult(r: PolicyResult, finished: bool)
      requires Valid()
      modifies this`policy, this`workers, this`workSerial, this`spawned
      ensures Valid() && View() == A.Adopt(old(View()), r, finished)
    {
      policy := r.state;
      CancelKinds({A.TimerWork});
      if r.target.Some? && A.CommandWork !in workers && !powerTransition {
        Spawn(A.CommandWork, r.target, None);
      }
      if r.requestSample {
        RequestSample(finished);
      }
      if r.nextBoundaryAt.Some? {
        Spawn(A.TimerWork, None, r.nextBoundaryAt);
      }
    }

    method RestartOperational(now: real, finished: bool)
      requires Valid()
      modifies this
      ensures Valid() && View() == A.RequestFresh(A.Invalidate(old(View()), now), finished)
    {
      InvalidateOperational(now);
      RequestFreshIfUsable(finished);
    }

    method TakeOver(now: real, finished: bool)
      requires Valid()
      modifies this
      ensures Valid() && View() == A.OnControl(old(View()), A.Activate, now, finished)
    {
      active := true;
      powerTransition := false;
      RestartOperational(now, finished);
    }

    method YieldOwnership(now: real, finished: bool)
      requires Valid()
      modifies this
      ensures Valid() && View() == A.OnControl(old(View()), A.Yield, now, finished)
    {
      active := false;
      powerTransition := false;
      InvalidateOperational(now);
    }

    method StartPowerOff(now: real, finished: bool)
      requires Valid()
      modifies this
      ensures Valid() && View() == A.OnControl(old(View()), A.BeginPowerOff, now, finished)
    {
      powerTransition := true;
      InvalidateOperational(now);
    }

    method EndPowerOff(reported: Option<bool>, now: real, finished: bool)
      requires Valid()
      modifies this
      ensures Valid() && View() == A.OnControl(old(View()), A.FinishPowerOff(reported), now, finished)
    {
      powerTransition := false;
      powered := reported.Some? && reported.value;
      RestartOperational(now, finished);
    }

    method ApplyOptions(newOptions: Options, now: real, finished: bool)
      requires Valid()
      modifies this
      ensures Valid() && View() == A.OnControl(old(View()), A.Reconfigure(newOptions), now, finished)
    {
      configurationGeneration := configurationGeneration + 1;
      options := newOptions;
      RestartOperational(now, finished);
    }

    method Stop(now: real, finished: bool)
      requires Valid()
      modifies this
      ensures Valid() && View() == A.OnControl(old(View()), A.Shutdown, now, finished)
    {
      active := false;
      InvalidateOperational(now);
      stopped := true;
    }

    method HandleControl(e: A.Event, now: real, finished: bool)
      requires Valid() && A.IsControl(e)
      modifies this
      ensures Valid() && View() == A.OnControl(old(View()), e, now, finished)
    {
      match e {
        case Activate => TakeOver(now, finished);
        case Yield => YieldOwnership(now, finished);
        case BeginPowerOff => StartPowerOff(now, finished);
        case FinishPowerOff(reported) => EndPowerOff(reported, now, finished);
        case Reconfigure(newOptions) => ApplyOptions(newOptions, now, finished);
        case Shutdown => Stop(now, finished);
      }
    }

    method HandleConnection(up: bool, generation: int, observedAt: real, finished: bool)
      requires Valid()
      modifies this
      ensures Valid() && View() == A.OnConnection(old(View()), A.Connection(up, generation, observedAt), finished)
    {
      if generation < connectionGeneration {
        return;
      }
      var changedGeneration := generation != connectionGeneration;
      var recovering := up && !available;
      if changedGeneration || !up || recovering {
        if changedGeneration {
          lastSeenAirRevision := None;
        }
        connectionGeneration := generation;
        available := up;
        RestartOperational(observedAt, finished);
        return;
      }
      available := up;
    }

    method HandlePower(on: bool, now: real, finished: bool)
      requires Valid()
      modifies this
      ensures Valid() && View() == A.OnPower(old(View()), on, now, finished)
    {
      if on == powered {
        return;
      }
      powered := on;
      RestartOperational(now, finished);
    }

    method HandleAirQuality(generation: int, revision: int, pm25: Option<int>, observedAt: real, finished: bool)
      requires Valid()
      modifies this
      ensures Valid()
      ensures View() == A.OnAirQuality(old(View()), A.AirQuality(generation, revision, pm25, observedAt), finished)
    {
      if generation != connectionGeneration {
        return;
      }
      if lastSeenAirRevision.Some? && revision <= lastSeenAirRevision.value {
        return;
      }
      lastSeenAirRevision := Some(revision);
      if !active || !available || !powered || powerTransition {
        return;
      }
      if sampleBarrierRevision.Some? && revision <= sampleBarrierRevision.value {
        return;
      }
      if sampleBarrierObservedAt.Some? && observedAt < sampleBarrierObservedAt.value {
        return;
      }
      var result := EvaluateObservation(policy, options, pm25, revision, observedAt);
      if result.state == policy {
        return;
      }
      ApplyPolicyResult(result, finished);
    }

    method HandleFanMode(generation: int, physical: bool, mode: FanMode, now: real, finished: bool)
      requires Valid()
      modifies this
      ensures Valid() && View() == A.OnFan(old(View()), A.FanObserved(generation, physical, mode), now, finished)
    {
      if generation != connectionGeneration {
        return;
      }
      if !active {
        return;
      }
      if physical {
        if mode == Auto {
          RestartOperational(now, finished);
        } else {
          active := false;
          InvalidateOperational(now);
        }
      }
    }

    method ConfirmCommand(mode: FanMode, now: real, finished: bool)
      requires Valid()
      modifies this
      ensures Valid() && View() == A.Confirmed(old(View()), mode, now, finished)
    {
      var confirmed := ConfirmPending(policy, mode);
      if confirmed.Err? {
        return;
      }
      ApplyPolicyResult(ReconcileDeferred(confirmed.value, options), finished);
      var boundary := FireBoundary(policy, options, now);
      ApplyPolicyResult(boundary, finished);
    }

    method HandleWorkDone(kind: A.Kind, serial: nat, token: A.Token, target: Option<FanMode>,
                          succeeded: bool, cancelled: bool, now: real, finished: bool)
      requires Valid()
      modifies this
      ensures Valid()
      ensures View() == A.OnWorkDone(old(View()), A.WorkDone(kind, serial, token, target, succeeded, cancelled), now, finished)
    {
      if kind !in workers || workers[kind] != serial {
        return;
      }
      workers := workers - {kind};
      if cancelled || token != Token() {
        return;
      }
      match kind {
        case TimerWork =>
          var result := FireBoundary(policy, options, now);
          ApplyPolicyResult(result, finished);
        case SampleWork =>
        case CommandWork =>
          if target != policy.pendingTarget {
            if policy.pendingTarget.Some? && IsUsable() {
              Spawn(A.CommandWork, policy.pendingTarget, None);
            }
          } else if target.Some? && succeeded {
            ConfirmCommand(target.value, now, finished);
          } else {
            policy := MarkFailed(policy);
          }
      }
    }

    /** Handles one queued event. */
    method Handle(input: A.Input)
      requires Valid()
      modifies this
      ensures Valid() && View() == A.Step(old(View()), input)
    {
      if stopped {
        return;
      }
      match input.event {
        case Connection(up, generation, seenAt) => HandleConnection(up, generation, seenAt, input.sampleFinished);
        case Power(on) => HandlePower(on, input.now, input.sampleFinished);
        case AirQuality(generation, revision, pm25, at) =>
          HandleAirQuality(generation, revision, pm25, at, input.sampleFinished);
        case FanObserved(generation, physical, mode) =>
          HandleFanMode(generation, physical, mode, input.now, input.sampleFinished);
        case WorkDone(kind, serial, token, target, succeeded, cancelled) =>
          HandleWorkDone(kind, serial, token, target, succeeded, cancelled, input.now, input.sampleFinished);
        case _ => HandleControl(input.event, input.now, input.sampleFinished);
      }
    }

    /** The actor loop: takes the queued events in order. */
    method RunQueue(inputs: seq<A.Input>)
      requires Valid()
      modifies this
      ensures Valid() && View() == A.Run(old(View()), inputs)
    {
      for i := 0 to |inputs|
        invariant Valid() && View() == A.Run(old(View()), inputs[..i])
      {
        Handle(inputs[i]);
        assert inputs[..i + 1][..i] == inputs[..i];
      }
      assert inputs[..|inputs|] == inputs;
    }
  }
}
