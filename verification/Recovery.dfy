/** Reconnect recovery: capped exponential backoff and a circuit floor computed from two
  * bounded sliding windows, which refine the full log of events. */
module Recovery {
  import opened Models

  const HISTORY_LIMIT := 32
  const MIN_JITTER := 0.8
  const MAX_JITTER := 1.2

  datatype Timings = Timings(
    backoffInitial: real,
    backoffMax: real,
    backoffResetAfter: real,
    recentAdvertisementMax: real,
    window: real,
    failureThreshold: nat,
    wakeThreshold: nat,
    initialFloor: real,
    maxFloor: real)

  datatype Decision = Decision(requested: real, effective: real, jittered: real, floor: real, planned: real)

  datatype Recovery = Recovery(failures: seq<real>, wakes: seq<real>, requested: real)

  // ---- bounded windows ----

  function Push(times: seq<real>, now: real): seq<real> {
    (if |times| < HISTORY_LIMIT then times else times[1..]) + [now]
  }

  /** Drops the leading times before the cutoff. */
  function Trim(times: seq<real>, cutoff: real): seq<real> {
    if times != [] && times[0] < cutoff then Trim(times[1..], cutoff) else times
  }

  function TrimWindow(r: Recovery, t: Timings, now: real): Recovery {
    r.(failures := Trim(r.failures, now - t.window), wakes := Trim(r.wakes, now - t.window))
  }

  function FloorFor(t: Timings, failures: nat, wakes: nat): real {
    if failures < t.failureThreshold || wakes < t.wakeThreshold then 0.0
    else if failures == t.failureThreshold then t.initialFloor
    else t.maxFloor
  }

  function CircuitFloor(r: Recovery, t: Timings, now: real): real {
    var w := TrimWindow(r, t, now);
    FloorFor(t, |w.failures|, |w.wakes|)
  }

  // ---- events ----

  datatype Event =
    | SequenceBegan
    | StableSession
    | Failed(stableFor: real, now: real)
    | Planned(now: real, recent: bool, jitter: real)
    | Waited(now: real, byAdvertisement: bool)
    | Inspected(now: real)

  function New(t: Timings): Recovery {
    Recovery([], [], t.backoffInitial)
  }

  predicate Stable(t: Timings, stableFor: real) {
    Max(0.0, stableFor) >= t.backoffResetAfter
  }

  predicate JitterAllowed(jitter: real) {
    MIN_JITTER <= jitter <= MAX_JITTER
  }

  function Step(r: Recovery, t: Timings, e: Event): Recovery {
    match e
    case SequenceBegan => r.(requested := t.backoffInitial)
    case StableSession => r.(failures := [], wakes := [])
    case Failed(stableFor, now) =>
      if Stable(t, stableFor) then New(t)
      else
        var w := TrimWindow(r, t, now);
        w.(failures := Push(w.failures, now))
    case Planned(now, _, jitter) => if JitterAllowed(jitter) then TrimWindow(r, t, now) else r
    case Waited(now, byAdvertisement) =>
      var w := TrimWindow(r, t, now);
      var s := if byAdvertisement then w.(wakes := Push(w.wakes, now)) else r;
      s.(requested := Min(t.backoffMax, r.requested * 2.0))
    case Inspected(now) => TrimWindow(r, t, now)
  }

  function Effective(t: Timings, requested: real, recent: bool): real {
    if recent then Min(requested, t.recentAdvertisementMax) else requested
  }

  function Jittered(effective: real, jitter: real): real {
    effective * jitter
  }

  function Plan(r: Recovery, t: Timings, now: real, recent: bool, jitter: real): Result<Decision, string> {
    if !JitterAllowed(jitter) then Err("jitter_factor out of range")
    else
      var effective := Effective(t, r.requested, recent);
      var floor := CircuitFloor(r, t, now);
      Ok(Decision(r.requested, effective, Jittered(effective, jitter), floor, Max(Jittered(effective, jitter), floor)))
  }

  function Run(r: Recovery, t: Timings, events: seq<Event>): Recovery {
    if events == [] then r else Step(Run(r, t, events[..|events| - 1]), t, events[|events| - 1])
  }

  /** The recovery controller: the two deques and the requested backoff. */
  class RecoveryController {
    const timings: Timings
    var failureTimes: seq<real>
    var wakeTimes: seq<real>
    var requestedBackoff: real

    ghost function View(): Recovery
      reads this
    {
      Recovery(failureTimes, wakeTimes, requestedBackoff)
    }

    constructor (timings: Timings)
      ensures this.timings == timings && View() == New(timings)
    {
      this.timings := timings;
      failureTimes, wakeTimes, requestedBackoff := [], [], timings.backoffInitial;
    }

    method BeginSequence()
      modifies this
      ensures View() == Step(old(View()), timings, SequenceBegan)
    {
      requestedBackoff := timings.backoffInitial;
    }

    method ResetAfterStableSession()
      modifies this
      ensures View() == Step(old(View()), timings, StableSession)
    {
      failureTimes, wakeTimes := [], [];
    }

    method RecordFailure(stableFor: real, now: real)
      modifies this
      ensures View() == Step(old(View()), timings, Failed(stableFor, now))
    {
      var stableSeconds := Max(0.0, stableFor);
      if stableSeconds >= timings.backoffResetAfter {
        ResetAfterStableSession();
        requestedBackoff := timings.backoffInitial;
        return;
      }
      TrimToWindow(now);
      failureTimes := Push(failureTimes, now);
    }

    method FloorAt(now: real) returns (floor: real)
      modifies this
      ensures View() == Step(old(View()), timings, Inspected(now))
      ensures floor == CircuitFloor(old(View()), timings, now)
    {
      TrimToWindow(now);
      var failures, wakes := |failureTimes|, |wakeTimes|;
      if failures < timings.failureThreshold || wakes < timings.wakeThreshold {
        return 0.0;
      }
      if failures == timings.failureThreshold {
        return timings.initialFloor;
      }
      return timings.maxFloor;
    }

    method PlanBackoff(now: real, recent: bool, jitter: real) returns (d: Result<Decision, string>)
      modifies this
      ensures View() == Step(old(View()), timings, Planned(now, recent, jitter))
      ensures d == Plan(old(View()), timings, now, recent, jitter)
    {
      if !(MIN_JITTER <= jitter <= MAX_JITTER) {
        return Err("jitter_factor out of range");
      }
      var requested := requestedBackoff;
      var effective := requested;
      if recent {
        effective := Min(requested, timings.recentAdvertisementMax);
      }
      var floor := FloorAt(now);
      var jittered := Jittered(effective, jitter);
      return Ok(Decision(requested, effective, jittered, floor, Max(jittered, floor)));
    }

    method CompleteBackoff(now: real, byAdvertisement: bool)
      modifies this
      ensures View() == Step(old(View()), timings, Waited(now, byAdvertisement))
    {
      if byAdvertisement {
        TrimToWindow(now);
        wakeTimes := Push(wakeTimes, now);
      }
      requestedBackoff := Min(timings.backoffMax, requestedBackoff * 2.0);
    }

    method TrimToWindow(now: real)
      modifies this`failureTimes, this`wakeTimes
      ensures View() == TrimWindow(old(View()), timings, now)
    {
      var cutoff := now - timings.window;
      while failureTimes != [] && failureTimes[0] < cutoff
        invariant Trim(failureTimes, cutoff) == Trim(old(failureTimes), cutoff)
        invariant wakeTimes == old(wakeTimes)
        decreases |failureTimes|
      {
        failureTimes := failureTimes[1..];
      }
      while wakeTimes != [] && wakeTimes[0] < cutoff
        invariant Trim(wakeTimes, cutoff) == Trim(old(wakeTimes), cutoff)
        invariant failureTimes == Trim(old(failureTimes), cutoff)
        decreases |wakeTimes|
      {
        wakeTimes := wakeTimes[1..];
      }
    }
  }
}
