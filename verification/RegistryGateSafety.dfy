/** Safety of the registry gate over every interleaving. */
module RegistryGateSafety {
  import opened Models
  import opened RegistryGate

  // ---- the gate stays closed until a later cleanup has succeeded ----

  ghost predicate Inv(g: Gate, k: Ledger) {
    Safe(g.flags, k) && LoopsInv(g) && Pursued(g)
  }

  lemma NewGateSatisfiesInv(allowed: bool)
    ensures Inv(NewGate(allowed), Ledger(0, 0))
  {
  }

  lemma TopIsSafe(f: Flags, k: Ledger, l: Loop)
    requires Safe(f, k)
    ensures Safe(Top(f, l).0, k)
  {
  }

  /** A transaction that has captured a generation succeeds: the cleanup stays required
    * exactly if the generation is no longer the current one. */
  lemma SuccessIsSafe(f: Flags, k: Ledger, captured: nat)
    requires Safe(f, k) && captured <= f.generation
    ensures Safe(Cleaned(f, captured), Ledger(k.lastBlock, Larger(k.cleaned, captured)))
  {
  }

  lemma AttemptIsSafe(f: Flags, k: Ledger, l: Loop, success: bool)
    requires Safe(f, k) && l.captured <= f.generation
    ensures Safe(Finish(f, l, success).0, if success then Ledger(k.lastBlock, Larger(k.cleaned, l.captured)) else k)
  {
    var m := l.(log := l.log + [l.captured]);
    if success {
      SuccessIsSafe(f, k, l.captured);
      TopIsSafe(Cleaned(f, l.captured), Ledger(k.lastBlock, Larger(k.cleaned, l.captured)), m);
    } else {
      assert Safe(Served(f, l.captured), k);
      TopIsSafe(Served(f, l.captured), k, m);
    }
  }

  lemma LoopIsSafe(g: Gate, k: Ledger, e: Event)
    requires Safe(g.flags, k) && LoopsInv(g) && IsLoopEvent(e) && Get(g, e.which).Some?
    ensures Safe(OnLoop(g.flags, Get(g, e.which).value, e).0, Record(k, g, e))
  {
    var l := Get(g, e.which).value;
    if e.Attempted? {
      AttemptIsSafe(g.flags, k, l, e.success);
    } else {
      TopIsSafe(g.flags, k, l);
    }
  }

  lemma RegistryEventIsSafe(f: Flags, k: Ledger, idle: bool, allowed: bool)
    requires Safe(f, k)
    ensures Safe(OnControl(f, idle, SetAllowed(allowed)),
                 if Blocks(f, SetAllowed(allowed)) then Ledger(f.generation + 1, k.cleaned) else k)
  {
  }

  lemma DisableIsSafe(f: Flags, k: Ledger, idle: bool)
    requires Safe(f, k)
    ensures Safe(OnControl(f, idle, Disable), Ledger(f.generation + 1, k.cleaned))
  {
    var h := OnControl(f, idle, Disable);
    forall t | t in h.terminals
      ensures t <= h.generation
    {
      assert t in f.terminals || t == f.generation + 1;
    }
  }

  lemma SettlingIsSafe(f: Flags, k: Ledger, idle: bool, generation: nat, success: bool, cancelled: bool)
    requires Safe(f, k) && generation in f.terminals
    ensures Safe(OnControl(f, idle, TerminalSettled(generation, success, cancelled)),
                 if success then Ledger(k.lastBlock, Larger(k.cleaned, generation)) else k)
  {
    var h := f.(terminals := f.terminals - {generation});
    assert Safe(h, k);
    SuccessIsSafe(h, k, generation);
  }

  lemma PlainEventIsSafe(f: Flags, k: Ledger, idle: bool, e: Event)
    requires Safe(f, k) && (e.Start? || e.StartFailed? || e.ShutDown?)
    ensures Safe(OnControl(f, idle, e), k)
  {
  }

  lemma ControlIsRecorded(g: Gate, k: Ledger, e: Event)
    requires !IsLoopEvent(e)
    ensures Record(k, g, e) ==
      if Blocks(g.flags, e) then Ledger(g.flags.generation + 1, k.cleaned)
      else if e.TerminalSettled? && e.success && e.generation in g.flags.terminals
      then Ledger(k.lastBlock, Larger(k.cleaned, e.generation))
      else k
  {
  }

  lemma ControlIsSafe(g: Gate, k: Ledger, e: Event)
    requires Safe(g.flags, k) && !IsLoopEvent(e) && !e.Observed?
    ensures Safe(OnControl(g.flags, g.owned.None?, e), Record(k, g, e))
  {
    var f, idle := g.flags, g.owned.None?;
    ControlIsRecorded(g, k, e);
    if e.SetAllowed? {
      RegistryEventIsSafe(f, k, idle, e.allowed);
    } else if e.Disable? {
      DisableIsSafe(f, k, idle);
    } else if e.TerminalSettled? {
      if e.generation in f.terminals {
        SettlingIsSafe(f, k, idle, e.generation, e.success, e.cancelled);
      }
    } else {
      PlainEventIsSafe(f, k, idle, e);
    }
  }

  lemma StepIsSafe(g: Gate, k: Ledger, e: Event)
    requires Safe(g.flags, k) && LoopsInv(g)
    ensures Safe(Step(g, e).flags, Record(k, g, e))
  {
    if IsLoopEvent(e) {
      if Get(g, e.which).Some? {
        LoopIsSafe(g, k, e);
      }
    } else if !e.Observed? {
      ControlIsSafe(g, k, e);
    }
  }

  // ---- three attempts per generation ----

  lemma {:induction false} Absent(log: seq<nat>, x: nat)
    requires x !in log
    ensures Occurrences(log, x) == 0
  {
    if log != [] {
      Absent(log[..|log| - 1], x);
    }
  }

  lemma OneMore(log: seq<nat>, y: nat, x: nat)
    ensures Occurrences(log + [y], x) == Occurrences(log, x) + if x == y then 1 else 0
  {
    assert (log + [y])[..|log|] == log;
  }

  /** A loop that turns to a newer generation starts its count afresh. */
  lemma Recapture(l: Loop, generation: nat)
    requires (forall x | x in l.log :: x < generation) && (forall x: nat :: Occurrences(l.log, x) <= LAST_ATTEMPT + 1)
    ensures LoopInv(l.(captured := generation, attempt := 0, stage := Trying), generation)
  {
    Absent(l.log, generation);
  }

  lemma Stopped(l: Loop, generation: nat, stage: Stage)
    requires l.captured <= generation && l.attempt <= LAST_ATTEMPT && (stage == Over || stage == Raised)
    requires (forall x | x in l.log :: x <= l.captured) && (forall x: nat :: Occurrences(l.log, x) <= LAST_ATTEMPT + 1)
    ensures LoopInv(l.(stage := stage), generation)
  {
  }

  lemma Logged(l: Loop, generation: nat)
    requires LoopInv(l, generation) && l.stage == Trying
    ensures var log := l.log + [l.captured];
      && (forall x | x in log :: x <= l.captured)
      && (forall x: nat :: Occurrences(log, x) <= LAST_ATTEMPT + 1)
      && Occurrences(log, l.captured) == l.attempt + 1
  {
    var log := l.log + [l.captured];
    forall x: nat
      ensures Occurrences(log, x) <= LAST_ATTEMPT + 1
    {
      OneMore(l.log, l.captured, x);
    }
    OneMore(l.log, l.captured, l.captured);
  }

  lemma TopKeepsLoop(f: Flags, l: Loop)
    requires l.captured <= f.generation && l.attempt <= LAST_ATTEMPT
    requires (forall x | x in l.log :: x <= l.captured) && (forall x: nat :: Occurrences(l.log, x) <= LAST_ATTEMPT + 1)
    requires f.required && !f.shutdown ==> forall x | x in l.log :: x < f.generation
    ensures LoopInv(Top(f, l).1, f.generation)
  {
    if f.required && !f.shutdown {
      Recapture(l, f.generation);
    } else {
      Stopped(l, f.generation, Over);
    }
  }

  lemma AttemptKeepsLoop(f: Flags, l: Loop, success: bool)
    requires LoopInv(l, f.generation) && l.stage == Trying
    ensures LoopInv(Finish(f, l, success).1, f.generation)
  {
    Logged(l, f.generation);
    var m := l.(log := l.log + [l.captured]);
    if success {
      TopKeepsLoop(Cleaned(f, l.captured), m);
    } else if l.attempt >= LAST_ATTEMPT {
      if l.captured != f.generation {
        TopKeepsLoop(Served(f, l.captured), m);
      } else {
        Stopped(m, f.generation, Raised);
      }
    }
  }

  lemma LoopStepKeepsLoop(f: Flags, l: Loop, e: Event)
    requires LoopInv(l, f.generation)
    ensures LoopInv(OnLoop(f, l, e).1, f.generation)
  {
    if e.Entered? && l.stage == Fresh {
      TopKeepsLoop(f, l);
    } else if e.Attempted? && l.stage == Trying {
      AttemptKeepsLoop(f, l, e.success);
    } else if e.Woke? && l.stage == Sleeping && l.captured != f.generation {
      TopKeepsLoop(f, l);
    }
  }

  lemma GrowingKeepsLoop(l: Option<Loop>, generation: nat, later: nat)
    requires l.Some? ==> LoopInv(l.value, generation)
    requires generation <= later
    ensures l.Some? ==> LoopInv(l.value, later)
    ensures LoopInv(NEW_LOOP, later)
  {
  }

  lemma LoopsKeepTheGeneration(f: Flags, l: Loop, e: Event)
    ensures OnLoop(f, l, e).0.generation == f.generation
  {
  }

  lemma ControlGrowsTheGeneration(f: Flags, idle: bool, e: Event)
    ensures f.generation <= OnControl(f, idle, e).generation
  {
  }

  lemma StepKeepsLoops(g: Gate, e: Event)
    requires LoopsInv(g)
    ensures LoopsInv(Step(g, e))
  {
    if IsLoopEvent(e) {
      if Get(g, e.which).Some? {
        LoopsKeepTheGeneration(g.flags, Get(g, e.which).value, e);
        LoopStepKeepsLoop(g.flags, Get(g, e.which).value, e);
      }
    } else {
      ControlGrowsTheGeneration(g.flags, g.owned.None?, e);
      GrowingKeepsLoop(g.owned, g.flags.generation, Step(g, e).flags.generation);
      GrowingKeepsLoop(g.startup, g.flags.generation, Step(g, e).flags.generation);
    }
  }

  // ---- no block is forgotten ----

  /** A loop event may open the gate, settle the cleanup and count a generation as
    * served, and changes nothing else. */
  predicate Progresses(f: Flags, h: Flags) {
    && h.generation == f.generation && h.terminals == f.terminals && f.served <= h.served
    && (h.required ==> f.required) && h.started == f.started && h.shutdown == f.shutdown
  }

  predicate Concluded(f: Flags, m: Loop) {
    && (m.stage == Over ==> !f.required || f.shutdown)
    && (m.stage == Raised ==> f.generation <= f.served)
  }

  lemma TopConcludes(f: Flags, l: Loop)
    ensures Progresses(f, Top(f, l).0) && Concluded(Top(f, l).0, Top(f, l).1)
  {
  }

  lemma FinishConcludes(f: Flags, l: Loop, success: bool)
    ensures Progresses(f, Finish(f, l, success).0)
    ensures Concluded(Finish(f, l, success).0, Finish(f, l, success).1)
  {
    var m := l.(log := l.log + [l.captured]);
    TopConcludes(Cleaned(f, l.captured), m);
    TopConcludes(Served(f, l.captured), m);
  }

  /** A loop that gives up has served the current generation; one that ends leaves no
    * cleanup required. */
  lemma EndingLoopsAreDone(f: Flags, l: Loop, e: Event)
    ensures var (h, m) := OnLoop(f, l, e); Progresses(f, h) && (Concluded(h, m) || (h, m) == (f, l))
  {
    TopConcludes(f, l);
    if e.Attempted? {
      FinishConcludes(f, l, e.success);
    }
  }

  lemma LoopPursues(g: Gate, e: Event)
    requires Pursued(g) && IsLoopEvent(e) && Get(g, e.which).Some?
    ensures Pursued(Step(g, e))
  {
    EndingLoopsAreDone(g.flags, Get(g, e.which).value, e);
  }

  lemma ControlPursues(g: Gate, e: Event)
    requires Pursued(g) && !IsLoopEvent(e)
    ensures Pursued(Step(g, e))
  {
  }

  lemma StepKeepsPursuit(g: Gate, e: Event)
    requires Pursued(g)
    ensures Pursued(Step(g, e))
  {
    if IsLoopEvent(e) {
      if Get(g, e.which).Some? {
        LoopPursues(g, e);
      }
    } else {
      ControlPursues(g, e);
    }
  }

  lemma StepKeepsInv(g: Gate, k: Ledger, e: Event)
    requires Inv(g, k)
    ensures Inv(Step(g, e), Record(k, g, e))
  {
    StepIsSafe(g, k, e);
    StepKeepsLoops(g, e);
    StepKeepsPursuit(g, e);
  }

  lemma {:induction false} RunKeepsInv(g: Gate, k: Ledger, events: seq<Event>)
    requires Inv(g, k)
    ensures Inv(Run(g, events), Book(k, g, events))
    decreases |events|
  {
    if events != [] {
      StepKeepsInv(g, k, events[0]);
      RunKeepsInv(Step(g, events[0]), Record(k, g, events[0]), events[1..]);
    }
  }

  /** In every interleaving an open gate means that policy is allowed, not terminally
    * blocked, and that some cleanup transaction which captured its generation at or after
    * the latest block has succeeded. */
  lemma OpenGateIsSafe(allowed: bool, events: seq<Event>)
    ensures var g := Run(NewGate(allowed), events); var k := Book(Ledger(0, 0), NewGate(allowed), events);
      g.flags.open ==> g.flags.allowed && !g.flags.terminal && k.lastBlock <= k.cleaned
  {
    NewGateSatisfiesInv(allowed);
    RunKeepsInv(NewGate(allowed), Ledger(0, 0), events);
  }

  /** In every interleaving a cleanup loop attempts a generation at most three times. */
  lemma ThreeAttemptsPerGeneration(allowed: bool, events: seq<Event>, which: Which, generation: nat)
    ensures var l := Get(Run(NewGate(allowed), events), which);
      l.Some? ==> Occurrences(l.value.log, generation) <= 3
  {
    NewGateSatisfiesInv(allowed);
    RunKeepsInv(NewGate(allowed), Ledger(0, 0), events);
  }

  /** In every interleaving a cleanup that a started, running coordinator still requires
    * is pursued by a loop or a terminal disable, or has used up its attempts. */
  lemma NoBlockIsForgotten(allowed: bool, events: seq<Event>)
    ensures Pursued(Run(NewGate(allowed), events))
  {
    NewGateSatisfiesInv(allowed);
    RunKeepsInv(NewGate(allowed), Ledger(0, 0), events);
  }

  // ---- an open gate and a required cleanup ----

  predicate Clean(f: Flags) {
    f.open ==> !f.required
  }

  /** The failure of the owned task is observed while the gate is open. */
  predicate LateFailure(g: Gate, e: Event) {
    e.Observed? && g.flags.open && g.owned.Some? && g.owned.value.stage == Raised
  }

  lemma LoopIsClean(f: Flags, l: Loop, e: Event)
    requires Clean(f)
    ensures Clean(OnLoop(f, l, e).0)
    ensures var (h, m) := OnLoop(f, l, e); h.open ==> f.open || m.stage == Over
  {
  }

  /** The one step that can leave the gate open over a required cleanup. */
  lemma StepKeepsCleanUnless(g: Gate, e: Event)
    requires Clean(g.flags)
    ensures Clean(Step(g, e).flags) <==> !LateFailure(g, e)
  {
    if IsLoopEvent(e) {
      if Get(g, e.which).Some? {
        LoopIsClean(g.flags, Get(g, e.which).value, e);
      }
    }
  }

  predicate Busy(l: Option<Loop>) {
    l.Some? && l.value.stage != Over
  }

  /** With no startup loop beside it the owned loop works behind a closed gate. */
  predicate Exclusive(g: Gate) {
    Clean(g.flags) && g.startup.None? && (Busy(g.owned) ==> !g.flags.open)
  }

  lemma StepKeepsExclusive(g: Gate, e: Event)
    requires Exclusive(g) && (e.Start? ==> !g.flags.required)
    ensures Exclusive(Step(g, e))
  {
    StepKeepsCleanUnless(g, e);
    if IsLoopEvent(e) {
      if e.which == Owned && g.owned.Some? {
        LoopIsClean(g.flags, g.owned.value, e);
      }
    }
  }

  /** Startup never finds a cleanup to run. */
  predicate StartsClean(g: Gate, events: seq<Event>)
    decreases |events|
  {
    events != [] ==> (events[0].Start? ==> !g.flags.required) && StartsClean(Step(g, events[0]), events[1..])
  }

  /** Unless startup runs a cleanup of its own, an open gate also means that no cleanup is
    * required. */
  lemma {:induction false} OpenGateIsClean(g: Gate, events: seq<Event>)
    requires Exclusive(g) && StartsClean(g, events)
    ensures Exclusive(Run(g, events))
    decreases |events|
  {
    if events != [] {
      StepKeepsExclusive(g, events[0]);
      OpenGateIsClean(Step(g, events[0]), events[1..]);
    }
  }

  lemma RunCons(g: Gate, e: Event, rest: seq<Event>)
    ensures Run(g, [e] + rest) == Run(Step(g, e), rest)
  {
    assert ([e] + rest)[1..] == rest;
  }

  /** The startup loop and the owned task serve generation 2 side by side. */
  const OVERLAP := Gate(Flags(true, false, false, true, 2, 1, true, false, {}),
                        Some(Loop(2, 0, Trying, [])), Some(Loop(2, 0, Trying, [1])))

  /** Two loops for one generation: the startup loop succeeds and opens the gate, the owned
    * task fails three times and marks the cleanup as required again. */
  lemma LateFailureLeavesTheGateOpen(opening: seq<Event>, failing: seq<Event>)
    requires opening == [SetAllowed(false), Start, Entered(Startup), SetAllowed(true), Entered(Owned), Attempted(Startup, true)]
    requires failing == [Attempted(Owned, false), Attempted(Startup, true), Woke(Owned), Attempted(Owned, false),
                         Woke(Owned), Attempted(Owned, false), Observed]
    ensures Run(NewGate(true), opening) == OVERLAP
    ensures Run(OVERLAP, failing).flags.open && Run(OVERLAP, failing).flags.required
  {
    OpeningOverlaps(opening);
    FailingLeavesOpen(failing);
  }

  lemma OpeningOverlaps(events: seq<Event>)
    requires events == [SetAllowed(false), Start, Entered(Startup), SetAllowed(true), Entered(Owned), Attempted(Startup, true)]
    ensures Run(NewGate(true), events) == OVERLAP
  {
    var g := NewGate(true);
    var g1 := Step(g, events[0]);
    var g2 := Step(g1, events[1]);
    var g3 := Step(g2, events[2]);
    var g4 := Step(g3, events[3]);
    var g5 := Step(g4, events[4]);
    SixSteps(g, events);
    assert g3.startup == Some(Loop(1, 0, Trying, []));
    assert g5.owned == Some(Loop(2, 0, Trying, []));
    assert [] + [1] == [1];
  }

  lemma SixSteps(g: Gate, e: seq<Event>)
    requires |e| == 6
    ensures Run(g, e) == Step(Step(Step(Step(Step(Step(g, e[0]), e[1]), e[2]), e[3]), e[4]), e[5])
  {
    RunCons(g, e[0], e[1..]);
    RunCons(Step(g, e[0]), e[1], e[2..]);
    ThreeSteps(Step(Step(g, e[0]), e[1]), e[2..5]);
    assert e == [e[0]] + e[1..] && e[1..] == [e[1]] + e[2..];
    FourSteps(Step(Step(g, e[0]), e[1]), e[2..]);
  }

  lemma ThreeSteps(g: Gate, e: seq<Event>)
    requires |e| == 3
    ensures Run(g, e) == Step(Step(Step(g, e[0]), e[1]), e[2])
  {
    assert e == [e[0]] + e[1..] && e[1..] == [e[1]] + e[2..] && e[2..] == [e[2]] + [];
    RunCons(g, e[0], e[1..]);
    RunCons(Step(g, e[0]), e[1], e[2..]);
    RunCons(Step(Step(g, e[0]), e[1]), e[2], []);
  }

  lemma FourSteps(g: Gate, e: seq<Event>)
    requires |e| == 4
    ensures Run(g, e) == Step(Step(Step(Step(g, e[0]), e[1]), e[2]), e[3])
  {
    assert e == [e[0]] + e[1..];
    RunCons(g, e[0], e[1..]);
    ThreeSteps(Step(g, e[0]), e[1..]);
  }

  lemma FailingLeavesOpen(events: seq<Event>)
    requires events == [Attempted(Owned, false), Attempted(Startup, true), Woke(Owned), Attempted(Owned, false),
                        Woke(Owned), Attempted(Owned, false), Observed]
    ensures Run(OVERLAP, events).flags.open && Run(OVERLAP, events).flags.required
  {
    var g1 := Step(OVERLAP, events[0]);
    var g2 := Step(g1, events[1]);
    var g3 := Step(g2, events[2]);
    var g4 := Step(g3, events[3]);
    assert g2.flags.open && !g2.flags.required && g2.owned == Some(Loop(2, 0, Sleeping, [] + [2]));
    assert events == [events[0]] + events[1..];
    RunCons(OVERLAP, events[0], events[1..]);
    SixSteps(g1, events[1..]);
  }
}
