/** The gate does not stay closed without cause, and no cleanup is given up early. */
module RegistryGateProgress {
  import opened Models
  import opened RegistryGate
  import opened RegistryGateSafety

  /** With no cleanup task left, only a block, a required cleanup or the end keeps the gate
    * closed; terminal cleanups come from a terminal block. */
  predicate OpenUnlessBlocked(g: Gate) {
    && (g.owned.None? && g.flags.allowed && !g.flags.terminal && !g.flags.required && !g.flags.shutdown ==> g.flags.open)
    && (g.flags.terminals != {} ==> g.flags.terminal)
  }

  lemma StepKeepsItOpen(g: Gate, e: Event)
    requires OpenUnlessBlocked(g)
    ensures OpenUnlessBlocked(Step(g, e))
  {
    if IsLoopEvent(e) && Get(g, e.which).Some? {
      LoopsKeepItOpen(g.flags, Get(g, e.which).value, e);
    }
  }

  /** What a loop may do to the flags: where it ends the need for cleanup it opens the gate,
    * and it never closes it. */
  predicate Opens(f: Flags, h: Flags) {
    && h.terminals == f.terminals && h.allowed == f.allowed && h.terminal == f.terminal && h.shutdown == f.shutdown
    && (f.open ==> h.open) && (h.required ==> f.required)
    && (f.required && !h.required && f.allowed && !f.terminal && !f.shutdown ==> h.open)
  }

  lemma TopOpens(f: Flags, l: Loop, h: Flags)
    requires Opens(f, h.(open := h.open || MayOpen(h))) || h.required
    requires h.terminals == f.terminals && h.allowed == f.allowed && h.terminal == f.terminal && h.shutdown == f.shutdown
    requires (f.open ==> h.open) && (h.required ==> f.required)
    ensures Opens(f, Top(h, l).0)
  {
  }

  lemma FinishOpens(f: Flags, l: Loop, success: bool)
    ensures Opens(f, Finish(f, l, success).0)
  {
    var m := l.(log := l.log + [l.captured]);
    if success {
      TopOpens(f, m, Cleaned(f, l.captured));
    } else if l.attempt >= LAST_ATTEMPT && l.captured != f.generation {
      TopOpens(f, m, Served(f, l.captured));
    }
  }

  lemma LoopsKeepItOpen(f: Flags, l: Loop, e: Event)
    ensures Opens(f, OnLoop(f, l, e).0)
  {
    TopOpens(f, l, f);
    if e.Attempted? {
      FinishOpens(f, l, e.success);
    }
  }

  lemma {:induction false} RunKeepsItOpen(g: Gate, events: seq<Event>)
    requires OpenUnlessBlocked(g)
    ensures OpenUnlessBlocked(Run(g, events))
    decreases |events|
  {
    if events != [] {
      StepKeepsItOpen(g, events[0]);
      RunKeepsItOpen(Step(g, events[0]), events[1..]);
    }
  }

  /** In every interleaving: once no cleanup task exists, a gate that is allowed, not
    * terminally blocked, needs no cleanup and is not shut down is open. */
  lemma GateReopens(allowed: bool, events: seq<Event>)
    ensures var g := Run(NewGate(allowed), events);
      g.owned.None? && g.flags.allowed && !g.flags.terminal && !g.flags.required && !g.flags.shutdown ==> g.flags.open
  {
    RunKeepsItOpen(NewGate(allowed), events);
  }

  /** In every interleaving the success of a cleanup that has captured the current generation
    * opens an allowed gate at once. */
  lemma SuccessOpensTheGate(allowed: bool, events: seq<Event>, which: Which)
    requires var g := Run(NewGate(allowed), events);
      && g.flags.allowed && !g.flags.terminal && !g.flags.shutdown
      && Get(g, which).Some? && Get(g, which).value.stage == Trying && Get(g, which).value.captured == g.flags.generation
    ensures var h := Step(Run(NewGate(allowed), events), Attempted(which, true)).flags; h.open && !h.required
  {
  }

  // ---- three attempts before giving up ----

  /** A loop that has given up has tried its generation three times. */
  predicate Persevered(l: Loop) {
    l.stage == Raised ==> Occurrences(l.log, l.captured) == 3
  }

  predicate AllPersevered(g: Gate) {
    (g.owned.Some? ==> Persevered(g.owned.value)) && (g.startup.Some? ==> Persevered(g.startup.value))
  }

  lemma FailurePerseveres(f: Flags, l: Loop)
    requires LoopInv(l, f.generation) && l.stage == Trying
    ensures Persevered(Finish(f, l, false).1)
  {
    OneMore(l.log, l.captured, l.captured);
  }

  lemma LoopPerseveres(f: Flags, l: Loop, e: Event)
    requires LoopInv(l, f.generation) && Persevered(l)
    ensures Persevered(OnLoop(f, l, e).1)
  {
    if e.Attempted? && l.stage == Trying {
      if !e.success {
        FailurePerseveres(f, l);
      }
    }
  }

  lemma StepPerseveres(g: Gate, e: Event)
    requires LoopsInv(g) && AllPersevered(g)
    ensures AllPersevered(Step(g, e))
  {
    if IsLoopEvent(e) && Get(g, e.which).Some? {
      LoopPerseveres(g.flags, Get(g, e.which).value, e);
    }
  }

  lemma {:induction false} RunPerseveres(g: Gate, k: Ledger, events: seq<Event>)
    requires Inv(g, k) && AllPersevered(g)
    ensures AllPersevered(Run(g, events))
    decreases |events|
  {
    if events != [] {
      StepPerseveres(g, events[0]);
      StepKeepsInv(g, k, events[0]);
      RunPerseveres(Step(g, events[0]), Record(k, g, events[0]), events[1..]);
    }
  }

  /** In every interleaving a loop that gives up has attempted its generation three times, not
    * fewer. */
  lemma GivingUpTakesThreeAttempts(allowed: bool, events: seq<Event>, which: Which)
    ensures var l := Get(Run(NewGate(allowed), events), which);
      l.Some? && l.value.stage == Raised ==> Occurrences(l.value.log, l.value.captured) == 3
  {
    NewGateSatisfiesInv(allowed);
    RunPerseveres(NewGate(allowed), Ledger(0, 0), events);
  }

  /** A failed attempt is repeated at the same generation until the third, and a newer
    * generation is served from the start. */
  lemma FailuresAreRetried(allowed: bool, events: seq<Event>, which: Which)
    requires var l := Get(Run(NewGate(allowed), events), which); l.Some? && l.value.stage == Trying
    ensures var g := Run(NewGate(allowed), events); var l := Get(g, which).value;
      var tried := Occurrences(l.log, l.captured) + 1;
      var h := Step(g, Attempted(which, false)); var m := Get(h, which);
      && m.Some? && Occurrences(m.value.log, l.captured) == tried
      && (tried < 3 ==> m.value.stage == Sleeping && m.value.captured == l.captured && h.flags == g.flags)
      && (tried >= 3 && l.captured == g.flags.generation ==> m.value.stage == Raised)
      && (tried >= 3 && l.captured != g.flags.generation && g.flags.required && !g.flags.shutdown ==>
            m.value.stage == Trying && m.value.captured == g.flags.generation && m.value.attempt == 0)
  {
    NewGateSatisfiesInv(allowed);
    RunKeepsInv(NewGate(allowed), Ledger(0, 0), events);
    var l := Get(Run(NewGate(allowed), events), which).value;
    OneMore(l.log, l.captured, l.captured);
  }

  // ---- registry events outdate running attempts ----

  /** In every interleaving a registry event that arrives while cleanup is required makes the
    * attempts already running too old: their success still leaves cleanup required. */
  lemma RegistryEventsOutdateAttempts(allowed: bool, events: seq<Event>, later: bool, which: Which)
    requires var g := Run(NewGate(allowed), events);
      && g.flags.required && !g.flags.shutdown && !g.flags.terminal
      && Get(g, which).Some? && Get(g, which).value.stage == Trying
    ensures var h := Step(Run(NewGate(allowed), events), SetAllowed(later));
      && h.flags.allowed == later && h.flags.generation == Run(NewGate(allowed), events).flags.generation + 1
      && Step(h, Attempted(which, true)).flags.required && Step(h, Attempted(which, true)).flags.open == h.flags.open
  {
    NewGateSatisfiesInv(allowed);
    RunKeepsInv(NewGate(allowed), Ledger(0, 0), events);
  }
}
