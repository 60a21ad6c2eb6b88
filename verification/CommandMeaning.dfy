/** What single queue operations mean for the commands they touch. */
module CommandMeaning {
  import opened Models
  import opened Protocol
  import opened Operations
  import opened CommandLifecycle
  import opened CommandInvariant
  import opened CommandRuns
  import opened CommandTheorems

  /** A new command supersedes exactly the pending commands of its type, waits behind
    * everything else, and leaves every other operation alone. */
  lemma EnqueueSupersedes(q: Queue, limits: Limits, captured: Option<nat>, command: Command, now: real, x: nat)
    requires Core(q, limits, captured) && x <= |q.ops|
    ensures var r := Enqueue(q, limits, command, now); var n := |q.ops|;
      && |r.ops| == n + 1 && n in r.pending && r.ops[n].command == command && r.ops[n].outcome == Open
      && r.ops[n].deadline == now + limits.window && r.ops[n].attempts == 0
      && !r.ops[n].cancelRequested && !r.ops[n].quiesced
      && (r.ops[n].force <==> command.SetFanMode? && command.mode in q.confirm)
      && r.confirm == (if command.SetFanMode? then q.confirm - {command.mode} else q.confirm)
      && (x < n && x in q.pending && CommandKind(q.ops[x].command) == CommandKind(command) ==>
            r.ops[x].outcome == Superseded && x !in r.pending)
      && (x < n && !(x in q.pending && CommandKind(q.ops[x].command) == CommandKind(command)) ==>
            r.ops[x] == q.ops[x] && (x in r.pending <==> x in q.pending))
  {
    SiftEffect(q.ops, q.pending, CoalesceFate(command));
    var s := Sifted(q, CoalesceFate(command));
    assert forall y :: y in s.pending + [|q.ops|] <==> y in s.pending || y == |q.ops|;
    if x < |q.ops| {
      assert s.ops[x] == Dealt(q.ops[x], x in q.pending, CoalesceFate(command));
    }
  }

  /** Taking the next command fails exactly the expired ones and activates the oldest of
    * the rest, if there is one. */
  lemma TakesTheOldestLive(q: Queue, limits: Limits, now: real, x: nat)
    requires Core(q, limits, None) && q.active.None? && x in q.pending
    ensures var r := TakeNext(q, now);
      && (now >= q.ops[x].deadline ==> r.ops[x].outcome == DeadlineExceeded && !InLine(r, x))
      && (now < q.ops[x].deadline ==>
            r.ops[x] == q.ops[x] && InLine(r, x) && r.active.Some? && r.active.value <= x)
      && (r.active.Some? ==> r.active.value in q.pending && now < q.ops[r.active.value].deadline)
  {
    SiftEffect(q.ops, q.pending, ExpiryFate(now));
    var d := Sifted(q, ExpiryFate(now));
    assert d.ops[x] == Dealt(q.ops[x], x in q.pending, ExpiryFate(now));
    assert x in d.pending <==> now < q.ops[x].deadline;
    if d.pending != [] {
      AscendingTail(d.pending);
      assert d.pending[0] in d.pending;
      assert d.pending == [d.pending[0]] + d.pending[1..];
    }
  }

  // ---- a physical change takes over ----

  lemma {:induction false} MarkEffect(ops: seq<Operation>, confirm: set<FanMode>, pending: seq<nat>, mode: FanMode)
    requires forall x | x in pending :: x < |ops|
    ensures var (o, c) := Mark(ops, confirm, pending, mode);
      && (forall x | x in pending && ops[x].command == SetFanMode(mode) :: o[x].force)
      && c == if exists x :: x in pending && ops[x].command == SetFanMode(mode) then confirm - {mode} else confirm
  {
    if pending != [] {
      var n := |pending| - 1;
      assert pending == pending[..n] + [pending[n]] && pending[n] in pending;
      assert forall x | x in pending[..n] :: x in pending;
      MarkEffect(ops, confirm, pending[..n], mode);
    }
  }

  /** Some pending command asks for the mode. */
  ghost predicate Requested(q: Queue, mode: FanMode)
    requires Known(q)
  {
    exists x :: x in q.pending && q.ops[x].command == SetFanMode(mode)
  }

  /** A physical change supersedes a sent, unsettled fan command, quarantines one echo of
    * it, and leaves the duty to be confirmed by the device: with every pending command of
    * that mode if there is one, else with the next to be enqueued. */
  lemma PhysicalChangesTakeOver(q: Queue, limits: Limits, captured: Option<nat>, generation: int)
    requires Core(q, limits, captured) && EchoesSound(q, limits, generation)
    requires SentFan(q) && q.ops[q.active.value].outcome == Open
    ensures var r := SupersedeByPhysical(q, limits, generation);
      var id := q.active.value; var mode := q.ops[id].command.mode;
      && r.ops[id].outcome == Superseded && r.ops[id].cancelRequested
      && ActiveEcho(q, limits, generation) in r.superseded
      && (forall x | x in q.pending && q.ops[x].command == SetFanMode(mode) :: r.ops[x].force)
      && r.confirm == if Requested(q, mode) then q.confirm - {mode} else q.confirm + {mode}
  {
    var id := q.active.value;
    var mode := q.ops[id].command.mode;
    var s := Update(q, id, q.ops[id].(outcome := Superseded, cancelRequested := true));
    MarkEffect(s.ops, q.confirm + {mode}, q.pending, mode);
    assert forall x | x in q.pending :: x != id && s.ops[x] == q.ops[x];
    var t := SupersededByPhysical(q);
    assert t.ops[id].command == s.ops[id].command && t.ops[id].attempts == s.ops[id].attempts;
    if Requested(q, mode) {
      assert q.confirm + {mode} - {mode} == q.confirm - {mode};
    }
  }

  lemma DoneHasBeenSent(c: Client, limits: Limits, x: nat)
    requires Inv(c, limits) && x < |c.queue.ops|
    requires c.queue.ops[x].outcome == Done && c.queue.ops[x].force
    ensures c.queue.ops[x].attempts > 0
  {
    assert Accountable(c.queue.ops[x], limits);
  }

  /** In every run a command with that duty is never taken as done from cached state: once
    * done, it has been sent. */
  lemma ForcedCommandsAreSent(limits: Limits, events: seq<Occurrence>, c: Client, x: nat)
    requires c == Reached(limits, events) && x < |c.queue.ops|
    requires c.queue.ops[x].outcome == Done && c.queue.ops[x].force
    ensures c.queue.ops[x].attempts > 0
  {
    DoneHasBeenSent(c, limits, x);
  }

  // ---- every send is checked ----

  /** The event checks the active operation and clears it for one send. */
  predicate Clears(c: Client, limits: Limits, e: Occurrence)
    requires Known(c.queue) && Encodable(c.queue, limits) && (c.captured.Some? ==> c.captured.value < |c.queue.ops|)
  {
    e.Attempted? && c.phase.Looping? && Step(c, limits, e).phase == Awaiting(false)
  }

  /** The latest clearance that no send has used up: for which operation, and when. */
  ghost function Clearance(c: Client, limits: Limits, events: seq<Occurrence>): Option<(nat, real)>
    requires Inv(c, limits)
  {
    if events == [] then None
    else
      var n := |events| - 1;
      var d := Run(c, limits, events[..n]);
      if Clears(d, limits, events[n]) then Some((d.queue.active.value, events[n].now))
      else if Sender(d, events[n]).Some? then None
      else Clearance(c, limits, events[..n])
  }

  /** The operation about to be sent has been cleared, in time. */
  ghost predicate Cleared(c: Client, limits: Limits, at: Option<(nat, real)>)
    requires Known(c.queue)
  {
    c.phase == Awaiting(false) && c.queue.active.Some? ==>
      at.Some? && c.queue.active == Some(at.value.0) && at.value.1 < c.queue.ops[at.value.0].deadline
  }

  lemma ClearingChecks(c: Client, limits: Limits, e: Occurrence)
    requires Inv(c, limits) && Clears(c, limits, e)
    ensures Cleared(Step(c, limits, e), limits, Some((c.queue.active.value, e.now)))
  {
  }

  lemma CallersClearNothing(c: Client, limits: Limits, e: Occurrence)
    requires Inv(c, limits) && !IsWork(e) && Step(c, limits, e).phase == Awaiting(false)
    ensures c.phase == Awaiting(false) && Step(c, limits, e).queue.active == c.queue.active
  {
    if e.Enqueued? && !c.stopping && Encode(limits.profile, e.command).Ok? {
      EnqueueKeepsActive(c.queue, limits, c.captured, e.command, e.now);
    }
    if e.Abandoned? && e.id < |c.queue.ops| {
      CancelKeepsActive(c.queue, limits, e.id, Some(c.generation));
    }
  }

  lemma WorkClearsNothing(c: Client, limits: Limits, e: Occurrence)
    requires Inv(c, limits) && IsWork(e) && !Clears(c, limits, e) && Step(c, limits, e).phase == Awaiting(false)
    ensures c.phase == Awaiting(false) && Step(c, limits, e).queue.active == c.queue.active && Sender(c, e).None?
  {
  }

  lemma DeadlineStays(c: Client, limits: Limits, e: Occurrence, x: nat)
    requires Inv(c, limits) && x < |c.queue.ops|
    ensures var q := Step(c, limits, e).queue; x < |q.ops| && q.ops[x].deadline == c.queue.ops[x].deadline
  {
    StepMoves(c, limits, e);
    assert Later(c.queue.ops[x], Step(c, limits, e).queue.ops[x], Sender(c, e) == Some(x));
  }

  lemma StepStaysCleared(c: Client, limits: Limits, e: Occurrence, d: Client, at: Option<(nat, real)>)
    requires Inv(c, limits) && Cleared(c, limits, at) && d == Step(c, limits, e) && Inv(d, limits)
    ensures Cleared(d, limits, if Clears(c, limits, e) then Some((c.queue.active.value, e.now))
                               else if Sender(c, e).Some? then None else at)
  {
    if Clears(c, limits, e) {
      ClearingChecks(c, limits, e);
    } else if d.phase == Awaiting(false) {
      if IsWork(e) {
        WorkClearsNothing(c, limits, e);
      } else {
        CallersClearNothing(c, limits, e);
      }
      DeadlineStays(c, limits, e, c.queue.active.value);
    }
  }

  lemma {:induction false} RunStaysCleared(c: Client, limits: Limits, events: seq<Occurrence>)
    requires Inv(c, limits) && c.phase.Idle?
    ensures Cleared(Run(c, limits, events), limits, Clearance(c, limits, events))
  {
    if events != [] {
      var n := |events| - 1;
      RunStaysCleared(c, limits, events[..n]);
      StepStaysCleared(Run(c, limits, events[..n]), limits, events[n], Run(c, limits, events), Clearance(c, limits, events[..n]));
    }
  }

  /** In every run each send follows a check of its own, made before the deadline of the
    * command, and stays within the budget. */
  lemma EverySendIsChecked(c: Client, limits: Limits, events: seq<Occurrence>, e: Occurrence, x: nat)
    requires Inv(c, limits) && c.phase.Idle? && Sender(Run(c, limits, events), e) == Some(x)
    ensures var d := Run(c, limits, events); var at := Clearance(c, limits, events);
      && at.Some? && at.value.0 == x && x < |d.queue.ops| && at.value.1 < d.queue.ops[x].deadline
      && d.queue.ops[x].attempts < limits.sends
  {
    RunStaysCleared(c, limits, events);
  }

  // ---- interrupted commands ----

  /** The connection breaks, or the last allowed send stays unanswered. */
  predicate Interrupts(c: Client, limits: Limits, e: Occurrence)
    requires Known(c.queue) && c.queue.active.Some?
  {
    e.Broken?
    || (e.Silent? && c.phase == Awaiting(true) && !ShouldRetry(c.queue, limits, c.queue.active.value, e.now))
  }

  function RequeueTime(e: Occurrence): real
    requires e.Broken? || e.Silent?
  {
    if e.Broken? then e.now else e.later
  }

  /** An interrupted command that is unsettled and in time goes back to the head of the line. */
  lemma InterruptedGoesFirst(c: Client, limits: Limits, e: Occurrence, y: nat)
    requires Inv(c, limits) && c.phase.Awaiting? && Interrupts(c, limits, e)
    requires var op := c.queue.ops[c.queue.active.value]; op.outcome == Open && RequeueTime(e) < op.deadline
    ensures var d := Step(c, limits, e); var id := c.queue.active.value;
      && d.phase.Idle? && InLine(d.queue, id) && (InLine(d.queue, y) ==> id <= y)
  {
    var d := Step(c, limits, e);
    assert d.queue.pending == [c.queue.active.value] + c.queue.pending;
  }

  lemma FirstInLineIsTaken(d: Client, limits: Limits, id: nat, now: real)
    requires Inv(d, limits) && d.phase.Idle? && !d.stopping && id in d.queue.pending && now < d.queue.ops[id].deadline
    requires forall y: nat | InLine(d.queue, y) :: id <= y
    ensures Step(d, limits, Taken(now)).queue.active == Some(id) && Step(d, limits, Taken(now)).phase.Preparing?
  {
    TakesTheOldestLive(d.queue, limits, now, id);
    var r := TakeNext(d.queue, now);
    assert InLine(d.queue, r.active.value);
  }

  /** No interrupted command is lost: whatever happens after the interruption, reconnects
    * and newer commands included, the next command an idle client takes is this one, unless
    * it has been settled meanwhile or has run out of time. */
  lemma InterruptedCommandsComeNext(c: Client, limits: Limits, e: Occurrence, between: seq<Occurrence>,
                                    b: Client, d: Client, now: real)
    requires Inv(c, limits) && c.phase.Awaiting? && Interrupts(c, limits, e)
    requires var op := c.queue.ops[c.queue.active.value]; op.outcome == Open && RequeueTime(e) < op.deadline
    requires b == Run(c, limits, [e]) && d == Run(b, limits, between) && d.phase.Idle? && !d.stopping
    requires var id := c.queue.active.value;
      id < |d.queue.ops| ==> d.queue.ops[id].outcome == Open && now < d.queue.ops[id].deadline
    ensures var r := Step(d, limits, Taken(now));
      r.queue.active == c.queue.active && r.phase.Preparing?
  {
    var id := c.queue.active.value;
    assert b == Step(c, limits, e);
    StepMoves(c, limits, e);
    NothingOvertakes(b, limits, between, id);
    OnePlace(d, limits, id);
    forall y: nat | InLine(d.queue, y)
      ensures id <= y
    {
      if y < id {
        NothingOvertakes(b, limits, between, y);
        InterruptedGoesFirst(c, limits, e, y);
      }
    }
    FirstInLineIsTaken(d, limits, id, now);
  }
}
