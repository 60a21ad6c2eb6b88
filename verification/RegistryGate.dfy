/** The gate that lets Custom Auto policy commands through, and the coalescing, bounded
  * cleanup that must succeed before it reopens after a block. */
module RegistryGate {
  import opened Models

  /** Two backoffs, hence three attempts per generation. */
  const LAST_ATTEMPT := 2

  datatype Stage = Fresh | Trying | Sleeping | Raised | Over

  /** One running cleanup loop; log lists the generation of every attempt it has made. */
  datatype Loop = Loop(captured: nat, attempt: nat, stage: Stage, log: seq<nat>)

  const NEW_LOOP := Loop(0, 0, Fresh, [])

  /** The coordinator's safety fields. */
  datatype Flags = Flags(
    allowed: bool,
    open: bool,
    terminal: bool,
    required: bool,
    generation: nat,
    served: nat,
    started: bool,
    shutdown: bool,
    terminals: set<nat>)

  datatype Gate = Gate(flags: Flags, owned: Option<Loop>, startup: Option<Loop>)

  function NewGate(allowed: bool): Gate {
    Gate(Flags(allowed, allowed, false, false, 0, 0, false, false, {}), None, None)
  }

  /** The two loops that can run side by side: the owned task, and the one the startup
    * sequence runs in line. */
  datatype Which = Owned | Startup

  datatype Event =
    | SetAllowed(allowed: bool)
    | Start
    | StartFailed
    | Disable
    | TerminalSettled(generation: nat, success: bool, cancelled: bool)
    | Entered(which: Which)
    | Attempted(which: Which, success: bool)
    | Woke(which: Which)
    | Observed
    | ShutDown(success: bool)

  function Larger(a: nat, b: nat): nat {
    if a < b then b else a
  }

  predicate MayOpen(f: Flags) {
    f.allowed && !f.terminal && !f.required && !f.shutdown
  }

  function OpenIfPossible(f: Flags): Flags {
    f.(open := f.open || MayOpen(f))
  }

  // ---- the cleanup loop ----

  function Get(g: Gate, which: Which): Option<Loop> {
    if which == Owned then g.owned else g.startup
  }

  function Put(g: Gate, which: Which, l: Loop): Gate {
    if which == Owned then g.(owned := Some(l)) else g.(startup := Some(l))
  }

  /** The head of the loop: another generation to serve, or the end. */
  function Top(f: Flags, l: Loop): (Flags, Loop) {
    if f.required && !f.shutdown then (f, l.(captured := f.generation, attempt := 0, stage := Trying))
    else (OpenIfPossible(f), l.(stage := Over))
  }

  function Served(f: Flags, captured: nat): Flags {
    f.(served := Larger(f.served, captured))
  }

  /** A cleanup that captured this generation has succeeded. */
  function Cleaned(f: Flags, captured: nat): Flags {
    Served(f, captured).(required := f.required && captured != f.generation)
  }

  function Finish(f: Flags, l: Loop, success: bool): (Flags, Loop) {
    var m := l.(log := l.log + [l.captured]);
    if success then Top(Cleaned(f, l.captured), m)
    else if l.attempt < LAST_ATTEMPT then (f, m.(stage := Sleeping))
    else if l.captured != f.generation then Top(Served(f, l.captured), m)
    else (Served(f, l.captured), m.(stage := Raised))
  }

  function Wake(f: Flags, l: Loop): (Flags, Loop) {
    if l.captured != f.generation then Top(f, l) else (f, l.(attempt := l.attempt + 1, stage := Trying))
  }

  function OnLoop(f: Flags, l: Loop, e: Event): (Flags, Loop) {
    match e
    case Entered(_) => if l.stage == Fresh then Top(f, l) else (f, l)
    case Attempted(_, success) => if l.stage == Trying then Finish(f, l, success) else (f, l)
    case Woke(_) => if l.stage == Sleeping then Wake(f, l) else (f, l)
    case _ => (f, l)
  }

  predicate IsLoopEvent(e: Event) {
    e.Entered? || e.Attempted? || e.Woke?
  }

  // ---- everything else ----

  /** Whether a control event must start the owned task, if none runs. A terminal disable
    * asks for it when its cleanup failed or its caller was cancelled meanwhile. */
  predicate WantsTask(f: Flags, e: Event) {
    match e
    case SetAllowed(allowed) => !f.shutdown && !f.terminal && f.started && (allowed ==> f.required)
    case TerminalSettled(generation, success, cancelled) =>
      generation in f.terminals && (!success || cancelled) && f.started
      && (if success then Cleaned(f, generation).required else f.required)
    case _ => false
  }

  /** The fields after a control event; idle says that no cleanup task exists. */
  function OnControl(f: Flags, idle: bool, e: Event): Flags {
    match e
    case SetAllowed(allowed) =>
      if f.shutdown || f.terminal then f
      else if !allowed then f.(allowed := false, open := false, required := true, generation := f.generation + 1)
      else if f.required then f.(allowed := true, generation := f.generation + 1)
      else f.(allowed := true, open := f.open || idle)
    case Start => if f.shutdown then f else f.(started := true)
    case StartFailed => f.(started := false)
    case Disable =>
      f.(terminal := true, allowed := false, open := false, generation := f.generation + 1, required := true,
         terminals := f.terminals + {f.generation + 1})
    case TerminalSettled(generation, success, _) =>
      if generation !in f.terminals then f
      else
        var h := f.(terminals := f.terminals - {generation});
        if success then Cleaned(h, generation) else h
    case ShutDown(success) =>
      if f.shutdown then f else f.(shutdown := true, started := false, required := f.required && !success)
    case _ => f
  }

  function OnDone(f: Flags, raised: bool): Flags {
    if raised then f.(required := true) else OpenIfPossible(f)
  }

  /** The callback after the owned task has ended: a newer generation gets a new task. */
  function CleanupDone(g: Gate, raised: bool): Gate {
    var f := OnDone(g.flags, raised);
    g.(flags := f, owned := if f.required && !f.shutdown && f.generation > f.served then Some(NEW_LOOP) else None)
  }

  predicate Ended(l: Option<Loop>) {
    l.Some? && (l.value.stage == Raised || l.value.stage == Over)
  }

  /** One step; an event that cannot occur in the current state changes nothing. */
  function Step(g: Gate, e: Event): Gate {
    if IsLoopEvent(e) then
      if Get(g, e.which).None? then g
      else
        var (f, l) := OnLoop(g.flags, Get(g, e.which).value, e);
        Put(g.(flags := f), e.which, l)
    else if e.Observed? then
      if Ended(g.owned) then CleanupDone(g, g.owned.value.stage == Raised) else g
    else
      Gate(OnControl(g.flags, g.owned.None?, e),
           if WantsTask(g.flags, e) && g.owned.None? then Some(NEW_LOOP) else g.owned,
           if e.Start? && !g.flags.started && !g.flags.shutdown then if g.flags.required then Some(NEW_LOOP) else None
           else g.startup)
  }

  function Run(g: Gate, events: seq<Event>): Gate
    decreases |events|
  {
    if events == [] then g else Run(Step(g, events[0]), events[1..])
  }

  // ---- bookkeeping of blocks and cleanups ----

  /** The event blocks the gate. */
  predicate Blocks(f: Flags, e: Event) {
    e.Disable? || (e == SetAllowed(false) && !f.shutdown && !f.terminal)
  }

  /** The generation captured by the cleanup transaction that the event completes. */
  function CleanedBy(g: Gate, e: Event): Option<nat> {
    match e
    case Attempted(which, true) =>
      if Get(g, which).Some? && Get(g, which).value.stage == Trying then Some(Get(g, which).value.captured) else None
    case TerminalSettled(generation, true, _) => if generation in g.flags.terminals then Some(generation) else None
    case _ => None
  }

  /** The generation of the latest block and the largest generation captured by a
    * transaction that has succeeded. */
  datatype Ledger = Ledger(lastBlock: nat, cleaned: nat)

  function Record(k: Ledger, g: Gate, e: Event): Ledger {
    Ledger(if Blocks(g.flags, e) then g.flags.generation + 1 else k.lastBlock,
           match CleanedBy(g, e)
           case Some(captured) => Larger(k.cleaned, captured)
           case None => k.cleaned)
  }

  function Book(k: Ledger, g: Gate, events: seq<Event>): Ledger
    decreases |events|
  {
    if events == [] then k else Book(Record(k, g, events[0]), Step(g, events[0]), events[1..])
  }

  function Occurrences(s: seq<nat>, x: nat): nat {
    if s == [] then 0 else Occurrences(s[..|s| - 1], x) + if s[|s| - 1] == x then 1 else 0
  }

  /** A loop serves ever newer generations, each with at most three attempts. */
  ghost predicate LoopInv(l: Loop, generation: nat) {
    && l.captured <= generation && l.attempt <= LAST_ATTEMPT
    && (l.stage == Sleeping ==> l.attempt < LAST_ATTEMPT)
    && (forall x | x in l.log :: x <= l.captured)
    && (l.stage == Fresh ==> l.log == [])
    && (l.stage == Trying ==> Occurrences(l.log, l.captured) == l.attempt)
    && (l.stage == Sleeping ==> Occurrences(l.log, l.captured) == l.attempt + 1)
    && (forall x: nat :: Occurrences(l.log, x) <= LAST_ATTEMPT + 1)
  }

  /** The gate is open only while policy is allowed and not terminally blocked, and only
    * if the latest block has been followed by a cleanup that captured its generation. */
  ghost predicate Safe(f: Flags, k: Ledger) {
    && (f.open ==> f.allowed && !f.terminal && k.lastBlock <= k.cleaned)
    && (!f.required && !f.shutdown ==> k.lastBlock <= k.cleaned)
    && k.lastBlock <= f.generation && k.cleaned <= f.generation && f.served <= f.generation
    && (forall t | t in f.terminals :: t <= f.generation)
  }

  ghost predicate LoopsInv(g: Gate) {
    && (g.owned.Some? ==> LoopInv(g.owned.value, g.flags.generation))
    && (g.startup.Some? ==> LoopInv(g.startup.value, g.flags.generation))
  }

  /** A required cleanup is always somebody's business: a loop, a terminal disable that
    * captured the current generation, or it has been tried to exhaustion. */
  predicate Pursued(g: Gate) {
    g.flags.required && g.flags.started && !g.flags.shutdown ==>
      || g.owned.Some?
      || (g.startup.Some? && !g.startup.value.stage.Over? && !g.startup.value.stage.Raised?)
      || g.flags.generation in g.flags.terminals
      || g.flags.generation <= g.flags.served
  }
}
