/** Whole runs of the command lifecycle. */
module CommandRuns {
  import opened Models
  import opened Protocol
  import opened Operations
  import opened CommandLifecycle
  import opened CommandInvariant
  import opened EchoQuarantine

  // ---- every step keeps the invariant ----

  lemma FinishSettled(c: Client, limits: Limits, q: Queue)
    requires Core(q, limits, None) && EchoesSound(q, limits, c.generation) && q.active.Some?
    requires q.ops[q.active.value].outcome != Open && c.captured.None? && !c.stopping
    ensures Inv(Finish(c, q), limits)
  {
    ReleaseKeeps(q, limits, q.active.value);
  }

  lemma FinishRequeued(c: Client, limits: Limits, now: real)
    requires Inv(c, limits) && c.queue.active.Some?
    ensures Inv(Finish(c, Requeue(c.queue, c.queue.active.value, now)), limits)
  {
    RequeueKeeps(c.queue, limits, c.queue.active.value, now);
  }

  lemma FinishWith(c: Client, limits: Limits, outcome: Outcome)
    requires Inv(c, limits) && c.queue.active.Some? && outcome != Open
    requires outcome == Done ==> var op := c.queue.ops[c.queue.active.value]; !op.force || op.attempts > 0
    ensures Inv(Finish(c, Settle(c.queue, c.queue.active.value, outcome)), limits)
  {
    SettleKeeps(c.queue, limits, None, c.queue.active.value, outcome);
    FinishSettled(c, limits, Settle(c.queue, c.queue.active.value, outcome));
  }

  lemma ExecuteKeepsInv(c: Client, limits: Limits, now: real, satisfied: bool)
    requires Inv(c, limits) && c.phase.Preparing?
    ensures Inv(OnWork(c, limits, Executed(now, satisfied)), limits)
  {
    var id := c.queue.active.value;
    if c.queue.ops[id].outcome != Open {
      FinishSettled(c, limits, c.queue);
    } else {
      if !c.queue.ops[id].force {
        FinishWith(c, limits, Done);
      }
      FinishWith(c, limits, DeadlineExceeded);
    }
  }

  lemma AttemptKeepsInv(c: Client, limits: Limits, now: real)
    requires Inv(c, limits) && c.phase.Looping?
    ensures Inv(OnWork(c, limits, Attempted(now)), limits)
  {
    if c.queue.ops[c.queue.active.value].outcome != Open {
      FinishSettled(c, limits, c.queue);
    } else {
      FinishWith(c, limits, DeadlineExceeded);
    }
  }

  lemma SentKeepsInv(c: Client, limits: Limits)
    requires Inv(c, limits) && c.phase == Awaiting(false)
    ensures Inv(OnWork(c, limits, Sent), limits)
  {
    SendKeeps(c.queue, limits, c.captured, c.queue.active.value, c.generation);
    SendSound(c.queue, limits, c.queue.active.value, c.generation);
  }

  lemma ReplyKeepsInv(c: Client, limits: Limits, e: Occurrence)
    requires Inv(c, limits) && c.phase.Awaiting?
    ensures Inv(OnReply(c, limits, e), limits)
  {
    match e
    case Silent(_, later) => FinishRequeued(c, limits, later);
    case Broken(now) => FinishRequeued(c, limits, now);
    case Expired => FinishWith(c, limits, DeadlineExceeded);
    case Answered =>
      if c.phase == Awaiting(true) {
        FinishWith(c, limits, Done);
      }
    case Noticed =>
      if c.queue.ops[c.queue.active.value].cancelRequested {
        FinishSettled(c, limits, c.queue);
      }
    case _ =>
  }

  lemma WorkKeepsInv(c: Client, limits: Limits, e: Occurrence)
    requires Inv(c, limits) && c.queue.active.Some? && IsWork(e)
    ensures Inv(OnWork(c, limits, e), limits)
  {
    match e
    case Executed(now, satisfied) =>
      if c.phase.Preparing? {
        ExecuteKeepsInv(c, limits, now, satisfied);
      }
    case Attempted(now) =>
      if c.phase.Looping? {
        AttemptKeepsInv(c, limits, now);
      }
    case Sent =>
      if c.phase == Awaiting(false) {
        SentKeepsInv(c, limits);
      }
    case _ =>
      if c.phase.Awaiting? {
        ReplyKeepsInv(c, limits, e);
      }
  }

  lemma FramesKeepInv(c: Client, limits: Limits, e: Occurrence)
    requires Inv(c, limits) && !c.stopping
    ensures Inv(OnFrame(c, limits, e), limits)
  {
    var q := c.queue;
    match e
    case Physical =>
      SupersedeKeeps(q, limits, c.captured, c.generation);
      if SentFan(q) {
        SupersededKeeps(q, limits, c.captured);
      }
      SupersedeSound(q, limits, c.generation);
    case Reserved =>
      OtherEchoesKeep(q, limits, c.captured, Reserve(q, limits, c.generation));
      ReserveSound(q, limits, c.generation);
    case Correlated =>
      OtherEchoesKeep(q, limits, c.captured, DiscardReservation(q, limits, c.generation));
      CorrelateSound(q, limits, c.generation);
    case FrameArrived(frame) =>
      OtherEchoesKeep(q, limits, c.captured, Consume(q, c.generation, frame));
      ConsumeSound(q, limits, c.generation, frame);
    case _ =>
  }

  lemma InterruptKeepsInv(c: Client, limits: Limits)
    requires Inv(c, limits) && !c.stopping
    ensures Inv(Step(c, limits, Interrupted), limits)
  {
    var q := ClearEchoes(c.queue);
    OtherEchoesKeep(c.queue, limits, c.captured, q);
    if q.active.Some? {
      ReleaseKeeps(q, limits, q.active.value);
      CapturedKeeps(Release(q, q.active.value), limits, q.active.value);
    }
  }

  lemma CapturedKeeps(q: Queue, limits: Limits, id: nat)
    requires Core(q, limits, if id < |q.ops| && q.ops[id].outcome == Open then Some(id) else None)
    requires id < |q.ops| && q.active.None? && id !in q.pending
    ensures Core(q, limits, Some(id))
  {
    CoreShrinks(q, q, limits, if q.ops[id].outcome == Open then Some(id) else None, Some(id));
  }

  lemma EnqueueKeepsInv(c: Client, limits: Limits, command: Command, now: real)
    requires Inv(c, limits) && !c.stopping && Encode(limits.profile, command).Ok?
    ensures Inv(c.(queue := Enqueue(c.queue, limits, command, now)), limits)
  {
    EnqueueKeeps(c.queue, limits, c.captured, command, now);
    if c.queue.active.Some? {
      EnqueueKeepsActive(c.queue, limits, c.captured, command, now);
    }
  }

  lemma AbandonKeepsInv(c: Client, limits: Limits, id: nat)
    requires Inv(c, limits) && id < |c.queue.ops|
    ensures Inv(c.(queue := Cancel(c.queue, limits, id, Some(c.generation))), limits)
  {
    CancelKeeps(c.queue, limits, c.captured, id, Some(c.generation));
    CancelSound(c.queue, limits, id, c.generation);
    CancelKeepsActive(c.queue, limits, id, Some(c.generation));
  }

  lemma CancelKeepsActive(q: Queue, limits: Limits, id: nat, generation: Option<int>)
    requires Known(q) && Encodable(q, limits) && id < |q.ops|
    ensures var r := Cancel(q, limits, id, generation);
      r.active == q.active && |r.ops| == |q.ops|
      && forall x: nat | x < |q.ops| :: r.ops[x].attempts == q.ops[x].attempts
  {
  }

  lemma CallerKeepsInv(c: Client, limits: Limits, e: Occurrence)
    requires Inv(c, limits) && (e.Enqueued? || e.Abandoned? || e.Taken?)
    ensures Inv(Step(c, limits, e), limits)
  {
    if e.Enqueued? {
      if !c.stopping && Encode(limits.profile, e.command).Ok? {
        EnqueueKeepsInv(c, limits, e.command, e.now);
      }
    } else if e.Abandoned? {
      if e.id < |c.queue.ops| {
        AbandonKeepsInv(c, limits, e.id);
      }
    } else if !c.stopping && c.phase.Idle? {
      TakeKeeps(c.queue, limits, e.now);
    }
  }

  lemma EnqueueKeepsActive(q: Queue, limits: Limits, captured: Option<nat>, command: Command, now: real)
    requires Core(q, limits, captured) && q.active.Some?
    ensures Enqueue(q, limits, command, now).ops[q.active.value] == q.ops[q.active.value]
  {
    SiftEffect(q.ops, q.pending, CoalesceFate(command));
  }

  lemma ConnectionKeepsInv(c: Client, limits: Limits, e: Occurrence)
    requires Inv(c, limits) && (e.Connecting? || e.Disconnected?)
    ensures Inv(Step(c, limits, e), limits)
  {
    OtherEchoesKeep(c.queue, limits, c.captured, ClearEchoes(c.queue));
  }

  lemma StepKeepsInv(c: Client, limits: Limits, e: Occurrence)
    requires Inv(c, limits)
    ensures Inv(Step(c, limits, e), limits)
  {
    if IsWork(e) {
      if c.queue.active.Some? {
        WorkKeepsInv(c, limits, e);
      }
    } else if IsFrameEvent(e) {
      if !c.stopping {
        FramesKeepInv(c, limits, e);
      }
    } else if e.Enqueued? || e.Abandoned? || e.Taken? {
      CallerKeepsInv(c, limits, e);
    } else if e.Connecting? || e.Disconnected? {
      ConnectionKeepsInv(c, limits, e);
    } else if e.Interrupted? {
      if !c.stopping {
        InterruptKeepsInv(c, limits);
      }
    } else if c.stopping {
      ShutdownKeeps(c.queue, limits, c.captured);
    }
  }

  // ---- what a step does to each operation ----

  /** An operation keeps its command and deadline, is settled at most once, and its sends
    * are counted. */
  predicate Later(a: Operation, b: Operation, sent: bool) {
    && b.command == a.command && b.deadline == a.deadline
    && (a.outcome != Open ==> b.outcome == a.outcome)
    && b.attempts == a.attempts + if sent then 1 else 0
  }

  ghost predicate Moves(q: Queue, r: Queue, sender: Option<nat>) {
    && |q.ops| <= |r.ops|
    && (forall x: nat | x < |q.ops| :: Later(q.ops[x], r.ops[x], sender == Some(x)))
    && (forall x: nat | |q.ops| <= x < |r.ops| :: r.ops[x].attempts == 0)
    && (forall x: nat | InLine(r, x) :: InLine(q, x) || |q.ops| <= x)
  }

  /** The operation whose frame an event puts on the air. */
  function Sender(c: Client, e: Occurrence): Option<nat> {
    if e.Sent? && c.phase == Awaiting(false) then c.queue.active else None
  }

  lemma SiftedMoves(q: Queue, fate: Operation -> Fate)
    requires Ordered(q)
    ensures Moves(q, Sifted(q, fate), None)
    ensures forall x: nat | InLine(Sifted(q, fate), x) :: InLine(q, x)
  {
    SiftEffect(q.ops, q.pending, fate);
  }

  lemma MovesOn(q: Queue, m: Queue, r: Queue)
    requires Moves(q, m, None) && Moves(m, r, None) && |m.ops| == |q.ops|
    ensures Moves(q, r, None)
  {
    forall x: nat | x < |q.ops|
      ensures Later(q.ops[x], r.ops[x], false)
    {
      assert Later(q.ops[x], m.ops[x], false) && Later(m.ops[x], r.ops[x], false);
    }
  }

  lemma SettleMoves(q: Queue, id: nat, outcome: Outcome)
    requires Known(q) && id < |q.ops|
    ensures Moves(q, Settle(q, id, outcome), None)
  {
  }

  lemma ReleaseMoves(q: Queue, id: nat)
    requires Known(q) && id < |q.ops|
    ensures Moves(q, Release(q, id), None)
  {
  }

  lemma RequeueMoves(q: Queue, id: nat, now: real)
    requires Known(q) && q.active == Some(id)
    ensures Moves(q, Requeue(q, id, now), None)
  {
    assert forall x :: x in [id] + q.pending <==> x == id || x in q.pending;
  }

  lemma FinishMoves(c: Client, q: Queue)
    requires Known(c.queue) && Known(q) && q.active.Some? && Moves(c.queue, q, None) && |q.ops| == |c.queue.ops|
    ensures Moves(c.queue, Finish(c, q).queue, None)
  {
    ReleaseMoves(q, q.active.value);
    MovesOn(c.queue, q, Finish(c, q).queue);
  }

  lemma FinishSettledMoves(c: Client, outcome: Outcome)
    requires Known(c.queue) && c.queue.active.Some?
    ensures Moves(c.queue, Finish(c, Settle(c.queue, c.queue.active.value, outcome)).queue, None)
    ensures Moves(c.queue, Finish(c, c.queue).queue, None)
  {
    SettleMoves(c.queue, c.queue.active.value, outcome);
    FinishMoves(c, Settle(c.queue, c.queue.active.value, outcome));
    FinishMoves(c, c.queue);
  }

  lemma FinishRequeuedMoves(c: Client, now: real)
    requires Known(c.queue) && c.queue.active.Some?
    ensures Moves(c.queue, Finish(c, Requeue(c.queue, c.queue.active.value, now)).queue, None)
  {
    var id := c.queue.active.value;
    RequeueMoves(c.queue, id, now);
    FinishMoves(c, Requeue(c.queue, id, now));
  }

  lemma UnchangedMoves(q: Queue)
    requires Known(q)
    ensures Moves(q, q, None)
  {
  }

  lemma PreparationMoves(c: Client, limits: Limits, e: Occurrence)
    requires Known(c.queue) && Encodable(c.queue, limits) && c.queue.active.Some? && (e.Executed? || e.Attempted?)
    ensures Moves(c.queue, OnWork(c, limits, e).queue, None)
  {
    UnchangedMoves(c.queue);
    FinishSettledMoves(c, Done);
    FinishSettledMoves(c, DeadlineExceeded);
  }

  lemma SendMoves(q: Queue, limits: Limits, id: nat, generation: int)
    requires Known(q) && id < |q.ops| && Encodable(q, limits)
    ensures Moves(q, RecordSend(q, limits, id, generation), Some(id))
  {
  }

  lemma ReplyMoves(c: Client, limits: Limits, e: Occurrence)
    requires Known(c.queue) && c.queue.active.Some?
    ensures Moves(c.queue, OnReply(c, limits, e).queue, None)
  {
    UnchangedMoves(c.queue);
    match e
    case Silent(_, later) => FinishRequeuedMoves(c, later);
    case Broken(now) => FinishRequeuedMoves(c, now);
    case Expired => FinishSettledMoves(c, DeadlineExceeded);
    case Answered => FinishSettledMoves(c, Done);
    case Noticed => FinishSettledMoves(c, Done);
    case _ =>
  }

  lemma WorkMoves(c: Client, limits: Limits, e: Occurrence)
    requires Known(c.queue) && Encodable(c.queue, limits) && c.queue.active.Some? && IsWork(e)
    ensures Moves(c.queue, OnWork(c, limits, e).queue, Sender(c, e))
  {
    if e.Executed? || e.Attempted? {
      PreparationMoves(c, limits, e);
    } else if e.Sent? {
      UnchangedMoves(c.queue);
      SendMoves(c.queue, limits, c.queue.active.value, c.generation);
    } else {
      UnchangedMoves(c.queue);
      ReplyMoves(c, limits, e);
    }
  }

  lemma SupersededMoves(q: Queue)
    requires Known(q) && SentFan(q) && q.ops[q.active.value].outcome == Open
    ensures Moves(q, SupersededByPhysical(q), None)
  {
    var id := q.active.value;
    var s := Update(q, id, q.ops[id].(outcome := Superseded, cancelRequested := true));
    var r := SupersededByPhysical(q);
    assert forall x: nat | x < |s.ops| :: r.ops[x] == s.ops[x] || r.ops[x] == s.ops[x].(force := true);
  }

  lemma FramesMove(c: Client, limits: Limits, e: Occurrence)
    requires Known(c.queue) && Encodable(c.queue, limits)
    ensures Moves(c.queue, OnFrame(c, limits, e).queue, None)
  {
    if e.Physical? && SentFan(c.queue) && c.queue.ops[c.queue.active.value].outcome == Open {
      SupersededMoves(c.queue);
    }
  }

  lemma CancelMoves(q: Queue, limits: Limits, id: nat, generation: Option<int>)
    requires Known(q) && Encodable(q, limits) && id < |q.ops|
    ensures Moves(q, Cancel(q, limits, id, generation), None)
  {
  }

  lemma EnqueueMoves(q: Queue, limits: Limits, command: Command, now: real)
    requires Ordered(q)
    ensures Moves(q, Enqueue(q, limits, command, now), None)
  {
    SiftedMoves(q, CoalesceFate(command));
    var s := Sifted(q, CoalesceFate(command));
    assert forall x :: x in s.pending + [|q.ops|] <==> x in s.pending || x == |q.ops|;
  }

  lemma TakeMoves(q: Queue, now: real)
    requires Ordered(q)
    ensures Moves(q, TakeNext(q, now), None)
  {
    SiftedMoves(q, ExpiryFate(now));
    var d := Sifted(q, ExpiryFate(now));
    if d.pending != [] {
      assert d.pending == [d.pending[0]] + d.pending[1..];
      assert d.pending[0] in d.pending;
    }
  }

  lemma ShutdownMoves(q: Queue, captured: Option<nat>)
    requires Ordered(q) && (captured.Some? ==> captured.value < |q.ops|)
    ensures Moves(q, FailForShutdown(q, captured), None)
  {
    var c := ClearEchoes(q);
    var current := if captured.Some? then captured else q.active;
    var s := if current.Some? then Settle(c, current.value, Stopped) else c;
    assert Moves(q, s, None);
    SiftedMoves(s, ShutdownFate());
    MovesOn(q, s, Sifted(s, ShutdownFate()));
  }

  lemma CallersMove(c: Client, limits: Limits, e: Occurrence)
    requires Inv(c, limits) && (e.Enqueued? || e.Taken? || e.Abandoned?)
    ensures Moves(c.queue, Step(c, limits, e).queue, None)
  {
    UnchangedMoves(c.queue);
    if e.Enqueued? {
      EnqueueMoves(c.queue, limits, e.command, e.now);
    } else if e.Taken? {
      TakeMoves(c.queue, e.now);
    } else if e.id < |c.queue.ops| {
      CancelMoves(c.queue, limits, e.id, Some(c.generation));
    }
  }

  lemma ClearMoves(q: Queue)
    requires Known(q)
    ensures Moves(q, ClearEchoes(q), None)
  {
  }

  lemma InterruptMoves(c: Client)
    requires Known(c.queue)
    ensures Moves(c.queue, Interrupt(c).queue, None)
  {
    var q := ClearEchoes(c.queue);
    ClearMoves(c.queue);
    if q.active.Some? {
      ReleaseMoves(q, q.active.value);
      MovesOn(c.queue, q, Release(q, q.active.value));
    }
  }

  lemma InterruptionMoves(c: Client, limits: Limits)
    requires Inv(c, limits)
    ensures Moves(c.queue, Step(c, limits, Interrupted).queue, None)
  {
    UnchangedMoves(c.queue);
    InterruptMoves(c);
  }

  lemma FinishingMoves(c: Client, limits: Limits)
    requires Inv(c, limits)
    ensures Moves(c.queue, Step(c, limits, Finished).queue, None)
  {
    UnchangedMoves(c.queue);
    ShutdownMoves(c.queue, c.captured);
  }

  lemma LifecycleMoves(c: Client, limits: Limits, e: Occurrence)
    requires Inv(c, limits) && (e.Connecting? || e.Disconnected? || e.Interrupted? || e.Finished?)
    ensures Moves(c.queue, Step(c, limits, e).queue, None)
  {
    if e.Interrupted? {
      InterruptionMoves(c, limits);
    } else if e.Finished? {
      FinishingMoves(c, limits);
    } else {
      UnchangedMoves(c.queue);
      ClearMoves(c.queue);
    }
  }

  lemma StepMoves(c: Client, limits: Limits, e: Occurrence)
    requires Inv(c, limits)
    ensures Moves(c.queue, Step(c, limits, e).queue, Sender(c, e))
  {
    if IsWork(e) {
      if c.queue.active.Some? {
        WorkMoves(c, limits, e);
      }
    } else if IsFrameEvent(e) {
      FramesMove(c, limits, e);
    } else if e.Enqueued? || e.Taken? || e.Abandoned? {
      CallersMove(c, limits, e);
    } else {
      LifecycleMoves(c, limits, e);
    }
  }
}
