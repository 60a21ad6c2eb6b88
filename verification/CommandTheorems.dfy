/** What holds of every command over every run: conservation, order, budget, a single
  * settlement, and the quarantine of stale acknowledgements. */
module CommandTheorems {
  import opened Models
  import opened Frame
  import opened Protocol
  import opened Operations
  import opened CommandLifecycle
  import opened CommandInvariant
  import opened EchoQuarantine
  import opened CommandRuns

  const IDLE_CLIENT := Client(EMPTY_QUEUE, Idle, 0, false, None)

  lemma IdleClientSatisfiesInv(limits: Limits)
    ensures Inv(IDLE_CLIENT, limits)
  {
  }

  /** The client after a sequence of occurrences; it keeps the invariant. */
  ghost function Run(c: Client, limits: Limits, events: seq<Occurrence>): (r: Client)
    requires Inv(c, limits)
    ensures Inv(r, limits)
  {
    if events == [] then c
    else
      var d := Run(c, limits, events[..|events| - 1]);
      StepKeepsInv(d, limits, events[|events| - 1]);
      Step(d, limits, events[|events| - 1])
  }

  /** The client after a sequence of occurrences from an idle start: every client so
    * reached satisfies the invariant. */
  ghost function Reached(limits: Limits, events: seq<Occurrence>): (r: Client)
    ensures Inv(r, limits)
  {
    IdleClientSatisfiesInv(limits);
    Run(IDLE_CLIENT, limits, events)
  }

  // ---- one place for every command ----

  lemma OnePlace(c: Client, limits: Limits, x: nat)
    requires Inv(c, limits)
    ensures var q := c.queue;
      && (x < |q.ops| && q.ops[x].outcome == Open && !c.stopping ==>
           ((q.active == Some(x)) != (x in q.pending)))
      && (x in q.pending ==> x < |q.ops| && q.ops[x].outcome == Open && (q.active.Some? ==> q.active.value < x))
      && (forall i, j | 0 <= i < j < |q.pending| :: q.pending[i] < q.pending[j])
  {
    if x < |c.queue.ops| && c.queue.ops[x].outcome == Open && !c.stopping {
      assert InLine(c.queue, x);
    }
  }

  /** In every run an unsettled operation of a client that is not stopping is either active
    * or waits, and only once; whatever waits is unsettled, in order of issue, behind the
    * active operation. */
  lemma EveryCommandHasOnePlace(limits: Limits, events: seq<Occurrence>, c: Client, x: nat)
    requires c == Reached(limits, events)
    ensures var q := c.queue;
      && (x < |q.ops| && q.ops[x].outcome == Open && !c.stopping ==>
           ((q.active == Some(x)) != (x in q.pending)))
      && (x in q.pending ==> x < |q.ops| && q.ops[x].outcome == Open && (q.active.Some? ==> q.active.value < x))
      && (forall i, j | 0 <= i < j < |q.pending| :: q.pending[i] < q.pending[j])
  {
    OnePlace(c, limits, x);
  }

  lemma NoThreeOfOneType(c: Client, limits: Limits, x: nat, y: nat, z: nat)
    requires Inv(c, limits) && !c.stopping && x < y < z < |c.queue.ops|
    requires c.queue.ops[x].outcome == Open && c.queue.ops[y].outcome == Open && c.queue.ops[z].outcome == Open
    ensures CommandKind(c.queue.ops[y].command) != CommandKind(c.queue.ops[z].command)
  {
    var q := c.queue;
    assert InLine(q, x) && InLine(q, y) && InLine(q, z);
  }

  /** In every run a client that is not stopping never holds three unsettled commands of
    * one type: of three in order of issue the last two differ. */
  lemma AtMostTwoPerType(limits: Limits, events: seq<Occurrence>, c: Client, x: nat, y: nat, z: nat)
    requires c == Reached(limits, events) && !c.stopping && x < y < z < |c.queue.ops|
    requires c.queue.ops[x].outcome == Open && c.queue.ops[y].outcome == Open && c.queue.ops[z].outcome == Open
    ensures CommandKind(c.queue.ops[y].command) != CommandKind(c.queue.ops[z].command)
  {
    NoThreeOfOneType(c, limits, x, y, z);
  }

  // ---- a single settlement ----

  /** Once settled an operation keeps its outcome, whatever follows. */
  lemma {:induction false} SettledOnce(c: Client, limits: Limits, events: seq<Occurrence>, x: nat)
    requires Inv(c, limits) && x < |c.queue.ops| && c.queue.ops[x].outcome != Open
    ensures var r := Run(c, limits, events);
      x < |r.queue.ops| && r.queue.ops[x].outcome == c.queue.ops[x].outcome
  {
    if events != [] {
      var n := |events| - 1;
      SettledOnce(c, limits, events[..n], x);
      var d := Run(c, limits, events[..n]);
      StepMoves(d, limits, events[n]);
      assert Later(d.queue.ops[x], Step(d, limits, events[n]).queue.ops[x], Sender(d, events[n]) == Some(x));
    }
  }

  lemma CancelSettles(q: Queue, limits: Limits, id: nat, generation: Option<int>)
    requires Known(q) && Encodable(q, limits) && id < |q.ops|
    ensures Cancel(q, limits, id, generation).ops[id].outcome != Open
  {
  }

  /** A caller that gives up leaves its operation settled. */
  lemma AbandonedCommandsSettle(c: Client, limits: Limits, id: nat)
    requires Inv(c, limits) && id < |c.queue.ops|
    ensures Step(c, limits, Abandoned(id)).queue.ops[id].outcome != Open
  {
    CancelSettles(c.queue, limits, id, Some(c.generation));
  }

  /** The end of a shutdown leaves no operation unsettled. */
  lemma ShutDownCommandsSettle(c: Client, limits: Limits, x: nat)
    requires Inv(c, limits) && c.stopping && x < |Step(c, limits, Finished).queue.ops|
    ensures Step(c, limits, Finished).queue.ops[x].outcome != Open
  {
    ShutdownKeeps(c.queue, limits, c.captured);
  }

  // ---- the send budget ----

  /** The operations whose frames a run puts on the air, in order. */
  ghost function Sends(c: Client, limits: Limits, events: seq<Occurrence>): seq<nat>
    requires Inv(c, limits)
  {
    if events == [] then []
    else
      var n := |events| - 1;
      var sender := Sender(Run(c, limits, events[..n]), events[n]);
      Sends(c, limits, events[..n]) + if sender.Some? then [sender.value] else []
  }

  function Count(s: seq<nat>, x: nat): nat {
    if s == [] then 0 else Count(s[..|s| - 1], x) + if s[|s| - 1] == x then 1 else 0
  }

  lemma CountSnoc(s: seq<nat>, y: nat, x: nat)
    ensures Count(s + [y], x) == Count(s, x) + if y == x then 1 else 0
  {
    assert (s + [y])[..|s|] == s;
  }

  function AttemptsOf(q: Queue, x: nat): nat {
    if x < |q.ops| then q.ops[x].attempts else 0
  }

  lemma SendIsCounted(d: Client, limits: Limits, e: Occurrence, s: seq<nat>, base: nat, x: nat)
    requires Inv(d, limits) && base + Count(s, x) == AttemptsOf(d.queue, x)
    ensures var sender := Sender(d, e);
      base + Count(s + if sender.Some? then [sender.value] else [], x) == AttemptsOf(Step(d, limits, e).queue, x)
  {
    var sender := Sender(d, e);
    StepMoves(d, limits, e);
    SendCounts(d.queue, Step(d, limits, e).queue, sender, x);
    if sender.Some? {
      CountSnoc(s, sender.value, x);
    } else {
      assert s + [] == s;
    }
  }

  /** The attempts of an operation count its sends across all reconnects, and they never
    * exceed the budget. */
  lemma {:induction false} SendsStayWithinBudget(c: Client, limits: Limits, events: seq<Occurrence>, x: nat)
    requires Inv(c, limits)
    ensures AttemptsOf(c.queue, x) + Count(Sends(c, limits, events), x) == AttemptsOf(Run(c, limits, events).queue, x)
    ensures AttemptsOf(Run(c, limits, events).queue, x) <= limits.sends
  {
    AttemptsFit(Run(c, limits, events), limits, x);
    if events != [] {
      var n := |events| - 1;
      SendsStayWithinBudget(c, limits, events[..n], x);
      SendIsCounted(Run(c, limits, events[..n]), limits, events[n], Sends(c, limits, events[..n]),
                    AttemptsOf(c.queue, x), x);
    }
  }

  lemma AttemptsFit(c: Client, limits: Limits, x: nat)
    requires Inv(c, limits)
    ensures AttemptsOf(c.queue, x) <= limits.sends
  {
    if x < |c.queue.ops| {
      assert Accountable(c.queue.ops[x], limits);
    }
  }

  lemma SendCounts(q: Queue, r: Queue, sender: Option<nat>, x: nat)
    requires Moves(q, r, sender) && (sender.Some? ==> sender.value < |q.ops|)
    ensures AttemptsOf(r, x) == AttemptsOf(q, x) + if sender == Some(x) then 1 else 0
  {
    if x < |q.ops| {
      assert Later(q.ops[x], r.ops[x], sender == Some(x));
    }
  }

  // ---- commands go out in order of issue ----

  predicate NonDecreasing(s: seq<nat>) {
    forall i, j | 0 <= i < j < |s| :: s[i] <= s[j]
  }

  ghost predicate Behind(s: seq<nat>, q: Queue) {
    && (forall y | y in s :: y < |q.ops|)
    && (forall y, x: nat | y in s && InLine(q, x) :: y <= x)
  }

  /** Frames go on the air in order of issue: after a send no older command is ever sent
    * again, however often commands are requeued. */
  lemma {:induction false} SendsFollowTheOrderOfIssue(c: Client, limits: Limits, events: seq<Occurrence>)
    requires Inv(c, limits)
    ensures NonDecreasing(Sends(c, limits, events))
    ensures Behind(Sends(c, limits, events), Run(c, limits, events).queue)
  {
    if events != [] {
      var n := |events| - 1;
      SendsFollowTheOrderOfIssue(c, limits, events[..n]);
      var d := Run(c, limits, events[..n]);
      StepMoves(d, limits, events[n]);
      OneMoreSend(Sends(c, limits, events[..n]), d.queue, Step(d, limits, events[n]).queue, Sender(d, events[n]));
    }
  }

  lemma OneMoreSend(s: seq<nat>, q: Queue, r: Queue, sender: Option<nat>)
    requires NonDecreasing(s) && Behind(s, q) && Ordered(q) && Moves(q, r, sender)
    requires sender.Some? ==> sender == q.active
    ensures var t := s + if sender.Some? then [sender.value] else [];
      NonDecreasing(t) && Behind(t, r)
  {
    var t := s + if sender.Some? then [sender.value] else [];
    assert forall i | 0 <= i < |s| :: s[i] in s;
    if sender.Some? {
      assert InLine(q, sender.value);
      assert forall x: nat | InLine(q, x) :: sender.value <= x;
    }
    assert forall y :: y in t <==> y in s || sender == Some(y);
    forall y, x: nat | y in t && InLine(r, x)
      ensures y <= x
    {
      assert InLine(q, x) || |q.ops| <= x;
    }
  }

  // ---- no command is overtaken ----

  /** Whatever happens, an operation that has left the line never comes back into it, so
    * that nothing ever overtakes the operations behind it. */
  lemma {:induction false} NothingOvertakes(c: Client, limits: Limits, events: seq<Occurrence>, y: nat)
    requires Inv(c, limits) && y < |c.queue.ops|
    ensures y < |Run(c, limits, events).queue.ops|
    ensures InLine(Run(c, limits, events).queue, y) ==> InLine(c.queue, y)
  {
    if events != [] {
      var n := |events| - 1;
      NothingOvertakes(c, limits, events[..n], y);
      StepMoves(Run(c, limits, events[..n]), limits, events[n]);
    }
  }

  // ---- stale acknowledgements ----

  /** The step puts a fan command of this mode on the air. */
  predicate SendsMode(c: Client, e: Occurrence, mode: FanMode)
    requires Known(c.queue)
  {
    Sender(c, e).Some? && c.queue.ops[Sender(c, e).value].command == SetFanMode(mode)
  }

  /** The step ends the connection generation or forgets its stale echoes. */
  predicate Forgets(c: Client, e: Occurrence) {
    e.Disconnected? || (e.Connecting? && c.phase.Idle?)
    || ((e.Interrupted? || e.Finished?) && (e.Interrupted? <==> !c.stopping))
  }

  /** The step cancels a fan command of this mode that is active and has been sent. */
  predicate CancelsSent(c: Client, e: Occurrence, mode: FanMode)
    requires Known(c.queue)
  {
    e.Abandoned? && c.queue.active == Some(e.id) && SentFan(c.queue) && c.queue.ops[e.id].command == SetFanMode(mode)
  }

  predicate InQuarantine(c: Client, limits: Limits, mode: FanMode) {
    Encode(limits.profile, SetFanMode(mode)).Ok?
    && (c.generation, Encode(limits.profile, SetFanMode(mode)).value) in c.queue.cancelled
  }

  lemma CancelQuarantines(c: Client, limits: Limits, id: nat, mode: FanMode)
    requires Inv(c, limits) && id < |c.queue.ops| && Encode(limits.profile, SetFanMode(mode)).Ok?
    ensures InQuarantine(c.(queue := Cancel(c.queue, limits, id, Some(c.generation))), limits, mode) <==>
      InQuarantine(c, limits, mode) || CancelsSent(c, Abandoned(id), mode)
  {
    CancelSound(c.queue, limits, id, c.generation);
    if c.queue.active == Some(id) && SentFan(c.queue) {
      FramesTellModesApart(limits.profile, mode, c.queue.ops[id].command.mode);
    }
  }

  lemma SendReleases(c: Client, limits: Limits, mode: FanMode)
    requires Inv(c, limits) && c.phase == Awaiting(false) && Encode(limits.profile, SetFanMode(mode)).Ok?
    ensures InQuarantine(OnWork(c, limits, Sent), limits, mode) <==>
      InQuarantine(c, limits, mode) && !SendsMode(c, Sent, mode)
  {
    var command := c.queue.ops[c.queue.active.value].command;
    if command.SetFanMode? {
      FramesTellModesApart(limits.profile, mode, command.mode);
    }
  }

  /** Preparation and reply events leave the quarantine alone. */
  lemma WorkKeepsQuarantine(c: Client, limits: Limits, e: Occurrence)
    requires Inv(c, limits) && c.queue.active.Some? && !e.Sent?
    ensures OnWork(c, limits, e).queue.cancelled == c.queue.cancelled
    ensures OnWork(c, limits, e).generation == c.generation
  {
  }

  lemma FramesKeepQuarantine(c: Client, limits: Limits, e: Occurrence)
    requires Inv(c, limits)
    ensures OnFrame(c, limits, e).queue.cancelled == c.queue.cancelled
    ensures OnFrame(c, limits, e).generation == c.generation
  {
  }

  lemma WorkQuarantine(c: Client, limits: Limits, e: Occurrence, mode: FanMode)
    requires Inv(c, limits) && c.queue.active.Some? && Encode(limits.profile, SetFanMode(mode)).Ok? && IsWork(e)
    ensures InQuarantine(OnWork(c, limits, e), limits, mode) <==>
      InQuarantine(c, limits, mode) && !SendsMode(c, e, mode)
  {
    if e.Sent? {
      if c.phase == Awaiting(false) {
        SendReleases(c, limits, mode);
      }
    } else {
      WorkKeepsQuarantine(c, limits, e);
    }
  }

  lemma SiftsKeepQuarantine(c: Client, limits: Limits, e: Occurrence)
    requires Inv(c, limits) && (e.Enqueued? || e.Taken?)
    ensures Step(c, limits, e).queue.cancelled == c.queue.cancelled
    ensures Step(c, limits, e).generation == c.generation
  {
  }

  lemma LifecycleQuarantine(c: Client, limits: Limits, e: Occurrence)
    requires Inv(c, limits) && (e.Connecting? || e.Disconnected? || e.Interrupted? || e.Finished?)
    ensures Step(c, limits, e).queue.cancelled == if Forgets(c, e) then [] else c.queue.cancelled
    ensures !Forgets(c, e) ==> Step(c, limits, e).generation == c.generation
  {
  }

  /** What a step does to the quarantine of a mode. */
  predicate QuarantineFollows(c: Client, e: Occurrence, limits: Limits, mode: FanMode, r: Client)
    requires Known(c.queue)
  {
    InQuarantine(r, limits, mode) <==>
      !Forgets(c, e) && (CancelsSent(c, e, mode) || (InQuarantine(c, limits, mode) && !SendsMode(c, e, mode)))
  }

  lemma AbandonQuarantine(c: Client, limits: Limits, id: nat, mode: FanMode)
    requires Inv(c, limits) && Encode(limits.profile, SetFanMode(mode)).Ok?
    ensures QuarantineFollows(c, Abandoned(id), limits, mode, Step(c, limits, Abandoned(id)))
  {
    if id < |c.queue.ops| {
      CancelQuarantines(c, limits, id, mode);
    }
  }

  lemma WorkQuarantineStep(c: Client, limits: Limits, e: Occurrence, mode: FanMode)
    requires Inv(c, limits) && Encode(limits.profile, SetFanMode(mode)).Ok? && IsWork(e)
    ensures QuarantineFollows(c, e, limits, mode, Step(c, limits, e))
  {
    if c.queue.active.Some? {
      WorkQuarantine(c, limits, e, mode);
    }
  }

  /** Exactly three things change whether a mode's echo is quarantined: cancelling a sent,
    * active command of that mode starts it; sending that mode or forgetting the
    * connection ends it. */
  lemma QuarantineStep(c: Client, limits: Limits, e: Occurrence, mode: FanMode)
    requires Inv(c, limits) && Encode(limits.profile, SetFanMode(mode)).Ok?
    ensures InQuarantine(Step(c, limits, e), limits, mode) <==>
      !Forgets(c, e) && (CancelsSent(c, e, mode) || (InQuarantine(c, limits, mode) && !SendsMode(c, e, mode)))
  {
    if IsWork(e) {
      WorkQuarantineStep(c, limits, e, mode);
    } else if IsFrameEvent(e) {
      FramesKeepQuarantine(c, limits, e);
    } else if e.Abandoned? {
      AbandonQuarantine(c, limits, e.id, mode);
    } else if e.Enqueued? || e.Taken? {
      SiftsKeepQuarantine(c, limits, e);
    } else {
      LifecycleQuarantine(c, limits, e);
    }
  }

  /** Whether a step starts, and whether it ends, the quarantine of a mode. */
  ghost function MarkOf(d: Client, e: Occurrence, mode: FanMode): (bool, bool)
    requires Known(d.queue)
  {
    (CancelsSent(d, e, mode) && !Forgets(d, e), Forgets(d, e) || SendsMode(d, e, mode))
  }

  ghost function Marks(c: Client, limits: Limits, events: seq<Occurrence>, mode: FanMode): seq<(bool, bool)>
    requires Inv(c, limits)
  {
    if events == [] then []
    else
      var n := |events| - 1;
      var d := Run(c, limits, events[..n]);
      Marks(c, limits, events[..n], mode) + [MarkOf(d, events[n], mode)]
  }

  /** Step k started the quarantine and no later step has ended it. */
  predicate Standing(marks: seq<(bool, bool)>, k: nat) {
    k < |marks| && marks[k].0 && forall i | k < i < |marks| :: !marks[i].1
  }

  ghost predicate Stands(marks: seq<(bool, bool)>) {
    exists k :: Standing(marks, k)
  }

  lemma StandingNext(before: seq<(bool, bool)>, last: (bool, bool))
    ensures Stands(before + [last]) <==> last.0 || (Stands(before) && !last.1)
  {
    var marks := before + [last];
    if last.0 {
      assert Standing(marks, |before|);
    }
    if k: nat :| Standing(before, k) && !last.1 {
      assert Standing(marks, k);
    }
    if k: nat :| Standing(marks, k) && !last.0 {
      assert marks[|before|] == last;
      assert forall i | k < i < |before| :: marks[i] == before[i];
      assert Standing(before, k);
    }
  }

  lemma QuarantineOneMore(d: Client, limits: Limits, e: Occurrence, mode: FanMode, before: seq<(bool, bool)>)
    requires Inv(d, limits) && Encode(limits.profile, SetFanMode(mode)).Ok?
    requires InQuarantine(d, limits, mode) <==> Stands(before)
    ensures InQuarantine(Step(d, limits, e), limits, mode) <==> Stands(before + [MarkOf(d, e, mode)])
  {
    QuarantineStep(d, limits, e, mode);
    StandingNext(before, MarkOf(d, e, mode));
  }

  /** In every run the exact echo of a mode is quarantined precisely while such a
    * cancellation stands; the bounded deque never drops one early. */
  lemma {:induction false} QuarantineIsStanding(c: Client, limits: Limits, events: seq<Occurrence>, mode: FanMode)
    requires Inv(c, limits) && c.queue.cancelled == [] && Encode(limits.profile, SetFanMode(mode)).Ok?
    ensures InQuarantine(Run(c, limits, events), limits, mode) <==> Stands(Marks(c, limits, events, mode))
  {
    if events != [] {
      var n := |events| - 1;
      var d := Run(c, limits, events[..n]);
      QuarantineIsStanding(c, limits, events[..n], mode);
      QuarantineOneMore(d, limits, events[n], mode, Marks(c, limits, events[..n], mode));
    }
  }

  /** While it stands, every exact echo of the cancelled command is swallowed. */
  lemma CancelledEchoesAreSwallowed(c: Client, limits: Limits, events: seq<Occurrence>, mode: FanMode)
    requires Inv(c, limits) && c.queue.cancelled == []
    requires limits.profile.fan == Fan3a && Encode(limits.profile, SetFanMode(mode)).Ok?
    requires Stands(Marks(c, limits, events, mode))
    ensures var r := Run(c, limits, events); var frame := Encode(limits.profile, SetFanMode(mode)).value;
      Swallows(r.queue, r.generation, frame) && Consume(r.queue, r.generation, frame) == r.queue
  {
    QuarantineIsStanding(c, limits, events, mode);
    FanFramesAreEchoes(limits.profile, mode);
  }

  /** Under the other fan template nothing is ever swallowed as a stale echo. */
  lemma OtherTemplatesSwallowNothing(q: Queue, profile: Profile, generation: int, mode: FanMode)
    requires profile.fan == Fan33 && Encode(profile, SetFanMode(mode)).Ok?
    ensures !Swallows(q, generation, Encode(profile, SetFanMode(mode)).value)
  {
    FanFramesAreEchoes(profile, mode);
  }
}
