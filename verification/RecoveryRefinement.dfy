/** The bounded windows refine the full log of failures and wakes, and the requested
  * backoff is the capped exponential of the completed waits. */
module RecoveryRefinement {
  import opened Models
  import opened Recovery

  // ---- the full log ----

  /** Every failure and every advertisement wake since the last reset. */
  datatype Log = Log(failures: seq<real>, wakes: seq<real>)

  /** The failed session had lasted long enough to start afresh. */
  predicate Lasted(t: Timings, stableFor: real) {
    stableFor >= t.backoffResetAfter || t.backoffResetAfter <= 0.0
  }

  function Append(log: Log, t: Timings, e: Event): Log {
    match e
    case StableSession => Log([], [])
    case Failed(stableFor, now) => if Lasted(t, stableFor) then Log([], []) else log.(failures := log.failures + [now])
    case Waited(now, true) => log.(wakes := log.wakes + [now])
    case _ => log
  }

  function FullLog(t: Timings, events: seq<Event>): Log {
    if events == [] then Log([], []) else Append(FullLog(t, events[..|events| - 1]), t, events[|events| - 1])
  }

  /** How many times lie in the window. */
  function InWindow(times: seq<real>, cutoff: real): nat {
    if times == [] then 0
    else InWindow(times[..|times| - 1], cutoff) + if times[|times| - 1] >= cutoff then 1 else 0
  }

  /** The floor that a storm of this many failures and wakes calls for. */
  function StormFloor(t: Timings, failures: nat, wakes: nat): real {
    if failures > t.failureThreshold && wakes >= t.wakeThreshold then t.maxFloor
    else if failures == t.failureThreshold && wakes >= t.wakeThreshold then t.initialFloor
    else 0.0
  }

  function LogFloor(log: Log, t: Timings, now: real): real {
    StormFloor(t, InWindow(log.failures, now - t.window), InWindow(log.wakes, now - t.window))
  }

  function Time(e: Event): Option<real> {
    match e
    case SequenceBegan => None
    case StableSession => None
    case Failed(_, now) => Some(now)
    case Planned(now, _, _) => Some(now)
    case Waited(now, _) => Some(now)
    case Inspected(now) => Some(now)
  }

  /** The clock is monotonic and has not passed now. */
  predicate Timely(events: seq<Event>, now: real) {
    if events == [] then true
    else
      var e := events[|events| - 1];
      var at := Time(e).GetOr(now);
      at <= now && Timely(events[..|events| - 1], at)
  }

  lemma {:induction false} TimelyLater(events: seq<Event>, now: real, later: real)
    requires Timely(events, now) && now <= later
    ensures Timely(events, later)
  {
    if events != [] {
      if Time(events[|events| - 1]).None? {
        TimelyLater(events[..|events| - 1], now, later);
      }
    }
  }

  // ---- ascending logs ----

  /** The times ascend, the last of them no later than the bound. */
  predicate Ascends(times: seq<real>, bound: real) {
    times == [] || (times[|times| - 1] <= bound && Ascends(times[..|times| - 1], times[|times| - 1]))
  }

  lemma {:induction false} AscendsBelow(times: seq<real>, bound: real, i: nat)
    requires Ascends(times, bound) && i < |times|
    ensures times[i] <= bound
  {
    var n := |times| - 1;
    if i < n {
      AscendsBelow(times[..n], times[n], i);
    }
  }

  /** Where the times that have not been trimmed begin. */
  function KeptFrom(times: seq<real>, cutoff: real): (k: nat)
    ensures k <= |times|
  {
    if times == [] then 0
    else if times[|times| - 1] < cutoff then |times|
    else KeptFrom(times[..|times| - 1], cutoff)
  }

  lemma {:induction false} KeptFromSplits(times: seq<real>, cutoff: real, bound: real, i: nat)
    requires Ascends(times, bound) && i < |times|
    ensures times[i] < cutoff <==> i < KeptFrom(times, cutoff)
  {
    var n := |times| - 1;
    if times[n] < cutoff {
      AscendsBelow(times, times[n], i);
    } else if i < n {
      KeptFromSplits(times[..n], cutoff, times[n], i);
    }
  }

  lemma {:induction false} WindowIsASuffix(times: seq<real>, cutoff: real, bound: real)
    requires Ascends(times, bound)
    ensures InWindow(times, cutoff) == |times| - KeptFrom(times, cutoff)
  {
    if times != [] {
      var n := |times| - 1;
      WindowIsASuffix(times[..n], cutoff, times[n]);
      if times[n] < cutoff {
        NoneInWindow(times[..n], cutoff, times[n]);
      }
    }
  }

  lemma {:induction false} NoneInWindow(times: seq<real>, cutoff: real, bound: real)
    requires Ascends(times, bound) && bound < cutoff
    ensures InWindow(times, cutoff) == 0
  {
    if times != [] {
      NoneInWindow(times[..|times| - 1], cutoff, times[|times| - 1]);
    }
  }

  function Start(times: seq<real>, cutoff: real): nat {
    var k := KeptFrom(times, cutoff);
    if |times| - k <= HISTORY_LIMIT then k else |times| - HISTORY_LIMIT
  }

  /** The last 32 of the logged times that a trim keeps. */
  function Kept(times: seq<real>, cutoff: real): seq<real> {
    times[Start(times, cutoff)..]
  }

  lemma {:induction false} TrimFrom(times: seq<real>, s: nat, cutoff: real, bound: real)
    requires Ascends(times, bound) && s <= |times|
    ensures Trim(times[s..], cutoff) == times[if s < KeptFrom(times, cutoff) then KeptFrom(times, cutoff) else s..]
    decreases |times| - s
  {
    if s < |times| {
      KeptFromSplits(times, cutoff, bound, s);
      if s < KeptFrom(times, cutoff) {
        assert times[s..][1..] == times[s + 1..];
        TrimFrom(times, s + 1, cutoff, bound);
      }
    }
  }

  lemma {:induction false} KeptFromGrows(times: seq<real>, cutoff: real, later: real)
    requires cutoff <= later
    ensures KeptFrom(times, cutoff) <= KeptFrom(times, later)
  {
    if times != [] {
      KeptFromGrows(times[..|times| - 1], cutoff, later);
    }
  }

  /** The deque keeps an ascending log, none of it later than now, as of a trim. */
  predicate Keeps(times: seq<real>, deque: seq<real>, cutoff: real, now: real) {
    Ascends(times, now) && deque == Kept(times, cutoff)
  }

  lemma TrimKeeps(times: seq<real>, deque: seq<real>, cutoff: real, now: real, later: real)
    requires Keeps(times, deque, cutoff, now) && cutoff <= later
    ensures Keeps(times, Trim(deque, later), later, now)
  {
    KeptFromGrows(times, cutoff, later);
    TrimFrom(times, Start(times, cutoff), later, now);
  }

  lemma PushedStart(times: seq<real>, cutoff: real, now: real)
    requires cutoff <= now
    ensures KeptFrom(times + [now], cutoff) == KeptFrom(times, cutoff)
    ensures Start(times + [now], cutoff) ==
      if |times| - Start(times, cutoff) < HISTORY_LIMIT then Start(times, cutoff) else Start(times, cutoff) + 1
  {
    assert (times + [now])[..|times|] == times;
  }

  lemma AscendsNow(times: seq<real>, now: real)
    requires Ascends(times, now)
    ensures Ascends(times + [now], now)
  {
    assert (times + [now])[..|times|] == times;
  }

  lemma PushKeeps(times: seq<real>, deque: seq<real>, cutoff: real, now: real)
    requires Keeps(times, deque, cutoff, now) && cutoff <= now
    ensures Keeps(times + [now], Push(deque, now), cutoff, now)
  {
    AscendsNow(times, now);
    PushedStart(times, cutoff, now);
    var all, s := times + [now], Start(times, cutoff);
    if |times| - s < HISTORY_LIMIT {
      assert all[s..] == times[s..] + [now];
    } else {
      assert all[s + 1..] == times[s..][1..] + [now];
    }
  }

  lemma KeepsLater(times: seq<real>, deque: seq<real>, cutoff: real, now: real, later: real)
    requires Keeps(times, deque, cutoff, now) && now <= later
    ensures Keeps(times, deque, cutoff, later)
  {
  }

  lemma EmptyKeeps(cutoff: real, now: real)
    ensures Keeps([], [], cutoff, now)
  {
  }

  // ---- one window at a time ----

  /** What an event does to one window. */
  datatype Move = Stay | Clear | Slide(now: real) | Record(now: real)

  function FailureMove(t: Timings, e: Event): Move {
    match e
    case SequenceBegan => Stay
    case StableSession => Clear
    case Failed(stableFor, now) => if Stable(t, stableFor) then Clear else Record(now)
    case Planned(now, _, jitter) => if JitterAllowed(jitter) then Slide(now) else Stay
    case Waited(now, byAdvertisement) => if byAdvertisement then Slide(now) else Stay
    case Inspected(now) => Slide(now)
  }

  function WakeMove(t: Timings, e: Event): Move {
    match FailureMove(t, e)
    case Record(now) => Slide(now)
    case Slide(now) => if e.Waited? then Record(now) else Slide(now)
    case other => other
  }

  function Moved(deque: seq<real>, m: Move, window: real): seq<real> {
    match m
    case Stay => deque
    case Clear => []
    case Slide(now) => Trim(deque, now - window)
    case Record(now) => Push(Trim(deque, now - window), now)
  }

  function Logged(times: seq<real>, m: Move): seq<real> {
    match m
    case Clear => []
    case Record(now) => times + [now]
    case _ => times
  }

  lemma StepMoves(r: Recovery, t: Timings, e: Event)
    ensures Step(r, t, e).failures == Moved(r.failures, FailureMove(t, e), t.window)
    ensures Step(r, t, e).wakes == Moved(r.wakes, WakeMove(t, e), t.window)
  {
  }

  lemma AppendMoves(log: Log, t: Timings, e: Event)
    ensures Append(log, t, e) == Log(Logged(log.failures, FailureMove(t, e)), Logged(log.wakes, WakeMove(t, e)))
  {
  }

  /** A move at the current time keeps the correspondence, as of a possibly later trim. */
  lemma MoveKeeps(times: seq<real>, deque: seq<real>, m: Move, window: real, cutoff: real, at: real) returns (next: real)
    requires window >= 0.0 && cutoff <= at - window && Keeps(times, deque, cutoff, at)
    requires m.Slide? || m.Record? ==> m.now == at
    ensures Keeps(Logged(times, m), Moved(deque, m, window), next, at) && next <= at - window
  {
    next := if m.Stay? then cutoff else at - window;
    if m.Clear? {
      EmptyKeeps(next, at);
    } else if !m.Stay? {
      TrimKeeps(times, deque, cutoff, at, next);
      var slid := Trim(deque, next);
      if m.Record? {
        PushKeeps(times, slid, next, at);
      }
    }
  }

  /** After any timely run the failure window keeps the log of failures. */
  lemma {:induction false} FailuresAreKept(t: Timings, events: seq<Event>, now: real)
      returns (times: seq<real>, deque: seq<real>, cutoff: real)
    requires t.window >= 0.0 && Timely(events, now)
    ensures times == FullLog(t, events).failures && deque == Run(New(t), t, events).failures
    ensures Keeps(times, deque, cutoff, now) && cutoff <= now - t.window
  {
    times, deque := FullLog(t, events).failures, Run(New(t), t, events).failures;
    if events == [] {
      cutoff := now - t.window;
      EmptyKeeps(cutoff, now);
    } else {
      var n := |events| - 1;
      var at := Time(events[n]).GetOr(now);
      var times0, deque0, before := FailuresAreKept(t, events[..n], at);
      cutoff := MoveKeeps(times0, deque0, FailureMove(t, events[n]), t.window, before, at);
      StepMoves(Run(New(t), t, events[..n]), t, events[n]);
      AppendMoves(FullLog(t, events[..n]), t, events[n]);
      KeepsLater(times, deque, cutoff, at, now);
    }
  }

  /** After any timely run the wake window keeps the log of advertisement wakes. */
  lemma {:induction false} WakesAreKept(t: Timings, events: seq<Event>, now: real)
      returns (times: seq<real>, deque: seq<real>, cutoff: real)
    requires t.window >= 0.0 && Timely(events, now)
    ensures times == FullLog(t, events).wakes && deque == Run(New(t), t, events).wakes
    ensures Keeps(times, deque, cutoff, now) && cutoff <= now - t.window
  {
    times, deque := FullLog(t, events).wakes, Run(New(t), t, events).wakes;
    if events == [] {
      cutoff := now - t.window;
      EmptyKeeps(cutoff, now);
    } else {
      var n := |events| - 1;
      var at := Time(events[n]).GetOr(now);
      var times0, deque0, before := WakesAreKept(t, events[..n], at);
      cutoff := MoveKeeps(times0, deque0, WakeMove(t, events[n]), t.window, before, at);
      StepMoves(Run(New(t), t, events[..n]), t, events[n]);
      AppendMoves(FullLog(t, events[..n]), t, events[n]);
      KeepsLater(times, deque, cutoff, at, now);
    }
  }

  // ---- the refinement ----

  function Capped(n: nat): nat {
    if n <= HISTORY_LIMIT then n else HISTORY_LIMIT
  }

  lemma KeptIsCounted(times: seq<real>, deque: seq<real>, cutoff: real, now: real, later: real)
    requires Keeps(times, deque, cutoff, now) && cutoff <= later
    ensures |Trim(deque, later)| == Capped(InWindow(times, later))
  {
    TrimKeeps(times, deque, cutoff, now, later);
    WindowIsASuffix(times, later, now);
  }

  /** A trimmed window holds as many times as lie in the window, but no more than 32. */
  predicate Counted(times: seq<real>, deque: seq<real>, cutoff: real) {
    |Trim(deque, cutoff)| == Capped(InWindow(times, cutoff))
  }

  lemma Count(times: seq<real>, deque: seq<real>, earlier: real, now: real, cutoff: real)
    requires Keeps(times, deque, earlier, now) && earlier <= cutoff
    ensures Counted(times, deque, cutoff)
  {
    KeptIsCounted(times, deque, earlier, now, cutoff);
  }

  lemma FailuresCount(t: Timings, events: seq<Event>, now: real, cutoff: real)
    requires t.window >= 0.0 && Timely(events, now) && cutoff == now - t.window
    ensures Counted(FullLog(t, events).failures, Run(New(t), t, events).failures, cutoff)
  {
    var times, deque, earlier := FailuresAreKept(t, events, now);
    Count(times, deque, earlier, now, cutoff);
  }

  lemma WakesCount(t: Timings, events: seq<Event>, now: real, cutoff: real)
    requires t.window >= 0.0 && Timely(events, now) && cutoff == now - t.window
    ensures Counted(FullLog(t, events).wakes, Run(New(t), t, events).wakes, cutoff)
  {
    var times, deque, earlier := WakesAreKept(t, events, now);
    Count(times, deque, earlier, now, cutoff);
  }

  /** After any timely run a trim leaves as many times as lie in the window, but no more
    * than 32. */
  lemma WindowsCountTheLog(t: Timings, events: seq<Event>, now: real, cutoff: real)
    requires t.window >= 0.0 && Timely(events, now) && cutoff == now - t.window
    ensures Counted(FullLog(t, events).failures, Run(New(t), t, events).failures, cutoff)
    ensures Counted(FullLog(t, events).wakes, Run(New(t), t, events).wakes, cutoff)
  {
    FailuresCount(t, events, now, cutoff);
    WakesCount(t, events, now, cutoff);
  }

  /** Both floors in terms of the two counts. */
  lemma FloorsFromCounts(r: Recovery, log: Log, t: Timings, now: real, cutoff: real)
    requires cutoff == now - t.window
    ensures CircuitFloor(r, t, now) == FloorFor(t, |Trim(r.failures, cutoff)|, |Trim(r.wakes, cutoff)|)
    ensures LogFloor(log, t, now) == StormFloor(t, InWindow(log.failures, cutoff), InWindow(log.wakes, cutoff))
  {
  }

  // ---- exactly when the floors agree ----

  /** What profile validation leaves of the recovery timings. */
  predicate Validated(t: Timings) {
    t.window >= 0.0 && 0.0 <= t.initialFloor <= t.maxFloor && t.failureThreshold >= 1 && t.wakeThreshold >= 1
  }

  /** Thirty-two slots tell the floors apart: there is no failure to count, no floor, or
    * the thresholds are small enough. */
  predicate HistorySuffices(t: Timings) {
    || t.backoffResetAfter <= 0.0
    || t.maxFloor == 0.0
    || (t.wakeThreshold <= 32
        && (t.failureThreshold < 32 || (t.failureThreshold == 32 && t.initialFloor == t.maxFloor)))
  }

  ghost predicate FloorsAgree(t: Timings) {
    forall events: seq<Event>, now: real | Timely(events, now) ::
      CircuitFloor(Run(New(t), t, events), t, now) == LogFloor(FullLog(t, events), t, now)
  }

  lemma CappedFloor(t: Timings, failures: nat, wakes: nat)
    requires Validated(t) && HistorySuffices(t) && t.backoffResetAfter > 0.0
    ensures FloorFor(t, Capped(failures), Capped(wakes)) == StormFloor(t, failures, wakes)
  {
  }

  /** m failures and then n wakes, all at time zero. */
  function Storm(m: nat, n: nat): seq<Event>
    decreases m + n
  {
    if n > 0 then Storm(m, n - 1) + [Waited(0.0, true)]
    else if m > 0 then Storm(m - 1, 0) + [Failed(-1.0, 0.0)]
    else []
  }

  lemma OneMoreInWindow(times: seq<real>, now: real, cutoff: real)
    requires cutoff <= now
    ensures InWindow(times + [now], cutoff) == InWindow(times, cutoff) + 1
  {
    assert (times + [now])[..|times|] == times;
  }

  lemma OneMoreFailure(t: Timings, events: seq<Event>)
    requires t.backoffResetAfter > 0.0
    ensures var log := FullLog(t, events);
      FullLog(t, events + [Failed(-1.0, 0.0)]) == log.(failures := log.failures + [0.0])
    ensures Timely(events, 0.0) ==> Timely(events + [Failed(-1.0, 0.0)], 0.0)
  {
    assert (events + [Failed(-1.0, 0.0)])[..|events|] == events;
    assert !Stable(t, -1.0);
  }

  lemma OneMoreWake(t: Timings, events: seq<Event>)
    ensures var log := FullLog(t, events);
      FullLog(t, events + [Waited(0.0, true)]) == log.(wakes := log.wakes + [0.0])
    ensures Timely(events, 0.0) ==> Timely(events + [Waited(0.0, true)], 0.0)
  {
    assert (events + [Waited(0.0, true)])[..|events|] == events;
  }

  /** The log of a storm, and that it is one. */
  ghost predicate Stormy(t: Timings, events: seq<Event>, m: nat, n: nat) {
    var log := FullLog(t, events);
    Timely(events, 0.0) && InWindow(log.failures, 0.0 - t.window) == m && InWindow(log.wakes, 0.0 - t.window) == n
  }

  lemma FailureIsStormy(t: Timings, events: seq<Event>, m: nat, n: nat)
    requires t.window >= 0.0 && t.backoffResetAfter > 0.0 && Stormy(t, events, m, n)
    ensures Stormy(t, events + [Failed(-1.0, 0.0)], m + 1, n)
  {
    OneMoreFailure(t, events);
    OneMoreInWindow(FullLog(t, events).failures, 0.0, 0.0 - t.window);
  }

  lemma WakeIsStormy(t: Timings, events: seq<Event>, m: nat, n: nat)
    requires t.window >= 0.0 && Stormy(t, events, m, n)
    ensures Stormy(t, events + [Waited(0.0, true)], m, n + 1)
  {
    OneMoreWake(t, events);
    OneMoreInWindow(FullLog(t, events).wakes, 0.0, 0.0 - t.window);
  }

  lemma {:induction false} StormIsLogged(t: Timings, m: nat, n: nat)
    requires t.window >= 0.0 && t.backoffResetAfter > 0.0
    ensures Stormy(t, Storm(m, n), m, n)
    decreases m + n
  {
    if n > 0 {
      StormIsLogged(t, m, n - 1);
      WakeIsStormy(t, Storm(m, n - 1), m, n - 1);
    } else if m > 0 {
      StormIsLogged(t, m - 1, 0);
      FailureIsStormy(t, Storm(m - 1, 0), m - 1, 0);
    }
  }

  lemma StormSeparates(t: Timings, m: nat)
    requires t.window >= 0.0 && t.backoffResetAfter > 0.0
    requires FloorsAgree(t)
    ensures FloorFor(t, Capped(m), Capped(t.wakeThreshold)) == StormFloor(t, m, t.wakeThreshold)
  {
    var events := Storm(m, t.wakeThreshold);
    StormIsLogged(t, m, t.wakeThreshold);
    WindowsCountTheLog(t, events, 0.0, 0.0 - t.window);
    FloorsFromCounts(Run(New(t), t, events), FullLog(t, events), t, 0.0, 0.0 - t.window);
    assert CircuitFloor(Run(New(t), t, events), t, 0.0) == LogFloor(FullLog(t, events), t, 0.0);
  }

  /** Where every session counts as stable no failure is ever recorded. */
  lemma {:induction false} NoFailureIsRecorded(t: Timings, events: seq<Event>)
    requires t.backoffResetAfter <= 0.0
    ensures FullLog(t, events).failures == [] && Run(New(t), t, events).failures == []
  {
    if events != [] {
      var n := |events| - 1;
      NoFailureIsRecorded(t, events[..n]);
      StepMoves(Run(New(t), t, events[..n]), t, events[n]);
      AppendMoves(FullLog(t, events[..n]), t, events[n]);
    }
  }

  lemma FloorIsOfTheLog(t: Timings, events: seq<Event>, now: real)
    requires Validated(t) && HistorySuffices(t) && Timely(events, now)
    ensures CircuitFloor(Run(New(t), t, events), t, now) == LogFloor(FullLog(t, events), t, now)
  {
    var cutoff := now - t.window;
    var log := FullLog(t, events);
    FloorsFromCounts(Run(New(t), t, events), log, t, now, cutoff);
    if t.backoffResetAfter <= 0.0 {
      NoFailureIsRecorded(t, events);
    } else {
      WindowsCountTheLog(t, events, now, cutoff);
      CappedFloor(t, InWindow(log.failures, cutoff), InWindow(log.wakes, cutoff));
    }
  }

  /** Over every timely run the floor computed from the 32-slot windows equals the floor of
    * the full log exactly if thirty-two slots suffice for the profile. */
  lemma BoundedWindowsRefineTheLog(t: Timings)
    requires Validated(t)
    ensures FloorsAgree(t) <==> HistorySuffices(t)
  {
    if HistorySuffices(t) {
      forall events: seq<Event>, now: real | Timely(events, now)
        ensures CircuitFloor(Run(New(t), t, events), t, now) == LogFloor(FullLog(t, events), t, now)
      {
        FloorIsOfTheLog(t, events, now);
      }
    } else if FloorsAgree(t) {
      StormSeparates(t, t.failureThreshold + 1);
    }
  }

  /** In every such run the floor is the initial one exactly at the failure threshold, the
    * largest above it, and none below it or without enough wakes. */
  lemma FloorFollowsTheStorm(t: Timings, events: seq<Event>, now: real)
    requires Validated(t) && HistorySuffices(t) && Timely(events, now)
    ensures var log := FullLog(t, events); var floor := CircuitFloor(Run(New(t), t, events), t, now);
      var failures, wakes := InWindow(log.failures, now - t.window), InWindow(log.wakes, now - t.window);
      && (failures == t.failureThreshold && wakes >= t.wakeThreshold ==> floor == t.initialFloor)
      && (failures > t.failureThreshold && wakes >= t.wakeThreshold ==> floor == t.maxFloor)
      && (failures < t.failureThreshold || wakes < t.wakeThreshold ==> floor == 0.0)
  {
    FloorIsOfTheLog(t, events, now);
  }

  /** One more failure, short of a stable session, never lowers the floor. */
  lemma FailuresNeverLowerTheFloor(t: Timings, events: seq<Event>, now: real, stableFor: real)
    requires Validated(t) && HistorySuffices(t) && Timely(events, now) && !Lasted(t, stableFor)
    ensures CircuitFloor(Run(New(t), t, events), t, now)
         <= CircuitFloor(Run(New(t), t, events + [Failed(stableFor, now)]), t, now)
  {
    var log := FullLog(t, events);
    assert (events + [Failed(stableFor, now)])[..|events|] == events;
    OneMoreInWindow(log.failures, now, now - t.window);
    FloorIsOfTheLog(t, events, now);
    FloorIsOfTheLog(t, events + [Failed(stableFor, now)], now);
  }

  // ---- the backoff ----

  /** x doubled k times. */
  function Doubled(x: real, k: nat): real {
    if k == 0 then x else Doubled(x, k - 1) * 2.0
  }

  /** Completed waits since the sequence began or a stable session failed. */
  function Waits(t: Timings, events: seq<Event>): nat {
    if events == [] then 0
    else
      var e := events[|events| - 1];
      match e
      case SequenceBegan => 0
      case Failed(stableFor, _) => if Lasted(t, stableFor) then 0 else Waits(t, events[..|events| - 1])
      case Waited(_, _) => Waits(t, events[..|events| - 1]) + 1
      case _ => Waits(t, events[..|events| - 1])
  }

  lemma CappedDoubling(limit: real, x: real)
    requires limit >= 0.0 && x >= 0.0
    ensures Min(limit, Min(limit, x) * 2.0) == Min(limit, x * 2.0)
  {
  }

  lemma {:induction false} DoubledIsNonNegative(x: real, k: nat)
    requires x >= 0.0
    ensures Doubled(x, k) >= 0.0
  {
    if k > 0 {
      DoubledIsNonNegative(x, k - 1);
    }
  }

  /** The requested backoff is the initial one doubled once per completed wait since the
    * last reset, up to the maximum. */
  lemma {:induction false} BackoffIsCappedExponential(t: Timings, events: seq<Event>)
    requires 0.0 <= t.backoffInitial <= t.backoffMax
    ensures Run(New(t), t, events).requested == Min(t.backoffMax, Doubled(t.backoffInitial, Waits(t, events)))
  {
    if events != [] {
      var n := |events| - 1;
      BackoffIsCappedExponential(t, events[..n]);
      var k := Waits(t, events[..n]);
      DoubledIsNonNegative(t.backoffInitial, k);
      CappedDoubling(t.backoffMax, Doubled(t.backoffInitial, k));
    }
  }

  /** The plan is refused exactly for a jitter outside its range. Otherwise it is the requested
    * delay, cut short by a recent advertisement, jittered, and raised to the floor. */
  predicate PlansFor(plan: Result<Decision, string>, t: Timings, recent: bool, jitter: real, requested: real, floor: real) {
    && (plan.Ok? <==> 0.8 <= jitter <= 1.2)
    && (plan.Ok? ==>
          && plan.value.requested == requested && plan.value.floor == floor
          && plan.value.effective == (if recent then Min(requested, t.recentAdvertisementMax) else requested)
          && plan.value.jittered == plan.value.effective * jitter
          && plan.value.planned == Max(plan.value.jittered, floor))
  }

  lemma PlanIsTheLarger(r: Recovery, t: Timings, now: real, recent: bool, jitter: real)
    ensures PlansFor(Plan(r, t, now, recent, jitter), t, recent, jitter, r.requested, CircuitFloor(r, t, now))
  {
  }

  /** In every such run a planned delay is the larger of the jittered, capped exponential of
    * the completed waits and the floor of the full log. */
  lemma PlannedDelays(t: Timings, events: seq<Event>, now: real, recent: bool, jitter: real, r: Recovery)
    requires Validated(t) && HistorySuffices(t) && Timely(events, now)
    requires 0.0 <= t.backoffInitial <= t.backoffMax && r == Run(New(t), t, events)
    ensures PlansFor(Plan(r, t, now, recent, jitter), t, recent, jitter,
                     Min(t.backoffMax, Doubled(t.backoffInitial, Waits(t, events))), LogFloor(FullLog(t, events), t, now))
  {
    FloorIsOfTheLog(t, events, now);
    BackoffIsCappedExponential(t, events);
    PlanIsTheLarger(r, t, now, recent, jitter);
  }
}
