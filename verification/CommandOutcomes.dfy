/** Why a command ends the way it does: every outcome has exactly one kind of cause, and a
  * silent command is given every send it is entitled to. */
module CommandOutcomes {
  import opened Models
  import opened Protocol
  import opened Operations
  import opened CommandLifecycle
  import opened CommandInvariant
  import opened CommandRuns
  import opened CommandTheorems

  predicate Active(c: Client, x: nat) {
    c.queue.active == Some(x) && x < |c.queue.ops|
  }

  // ---- the causes ----

  /** The command succeeds: its answer arrives after a send, or before the first attempt the
    * cached state already shows what an unforced command asks for, in time. */
  predicate Succeeds(c: Client, e: Occurrence, x: nat) {
    Active(c, x) && (
      || (e.Answered? && c.phase == Awaiting(true))
      || (e.Executed? && c.phase.Preparing? && e.satisfied && !c.queue.ops[x].force && e.now < c.queue.ops[x].deadline))
  }

  /** The active command runs out of time, or of sends with nothing to show for them. */
  predicate RunsOut(c: Client, limits: Limits, e: Occurrence, x: nat) {
    Active(c, x) &&
    var op := c.queue.ops[x];
    match e
    case Executed(now, satisfied) =>
      c.phase.Preparing? && (now >= op.deadline || (op.attempts >= limits.sends && (op.force || !satisfied)))
    case Attempted(now) => c.phase.Looping? && now >= op.deadline
    case Silent(now, later) =>
      c.phase == Awaiting(true) && !(op.attempts < limits.sends && now < op.deadline) && later >= op.deadline
    case Broken(now) => c.phase.Awaiting? && now >= op.deadline
    case Expired => c.phase.Awaiting?
    case _ => false
  }

  /** A waiting command is found past its deadline. */
  predicate Expires(c: Client, e: Occurrence, x: nat) {
    e.Taken? && !c.stopping && c.phase.Idle? && x in c.queue.pending && x < |c.queue.ops| && e.now >= c.queue.ops[x].deadline
  }

  /** A newer command of the type is queued behind a waiting one, or the device's own controls
    * take over from a sent fan command. */
  predicate Yields(c: Client, limits: Limits, e: Occurrence, x: nat) {
    !c.stopping && x < |c.queue.ops| && (
      || (e.Enqueued? && Encode(limits.profile, e.command).Ok? && x in c.queue.pending
          && CommandKind(c.queue.ops[x].command) == CommandKind(e.command))
      || (e.Physical? && Active(c, x) && c.queue.ops[x].command.SetFanMode? && c.queue.ops[x].attempts > 0))
  }

  /** What ends an unsettled command, if this event does. */
  function Cause(c: Client, limits: Limits, e: Occurrence, x: nat): Outcome {
    if Succeeds(c, e, x) then Done
    else if RunsOut(c, limits, e, x) || Expires(c, e, x) then DeadlineExceeded
    else if Yields(c, limits, e, x) then Superseded
    else if e == Abandoned(x) then Cancelled
    else if e.Finished? && c.stopping then Stopped
    else Open
  }

  predicate Unsettled(c: Client, x: nat) {
    x < |c.queue.ops| && c.queue.ops[x].outcome == Open
  }

  // ---- one step ----

  /** As much of the invariant as a single outcome depends on. */
  predicate Sound(c: Client, limits: Limits) {
    && Known(c.queue) && Encodable(c.queue, limits) && (c.captured.Some? ==> c.captured.value < |c.queue.ops|)
    && (c.phase.Idle? <==> c.queue.active.None?)
    && (c.phase.Looping? ==> c.queue.ops[c.queue.active.value].attempts < limits.sends)
    && (c.stopping ==> c.phase.Idle?)
  }

  lemma InvIsSound(c: Client, limits: Limits)
    requires Inv(c, limits)
    ensures Sound(c, limits)
  {
  }

  lemma ExecutionHasCause(c: Client, limits: Limits, now: real, satisfied: bool, x: nat)
    requires Sound(c, limits) && Unsettled(c, x)
    ensures Step(c, limits, Executed(now, satisfied)).queue.ops[x].outcome == Cause(c, limits, Executed(now, satisfied), x)
  {
  }

  lemma AttemptHasCause(c: Client, limits: Limits, now: real, x: nat)
    requires Sound(c, limits) && Unsettled(c, x)
    ensures Step(c, limits, Attempted(now)).queue.ops[x].outcome == Cause(c, limits, Attempted(now), x)
  {
  }

  lemma SilenceHasCause(c: Client, limits: Limits, now: real, later: real, x: nat)
    requires Sound(c, limits) && Unsettled(c, x)
    ensures Step(c, limits, Silent(now, later)).queue.ops[x].outcome == Cause(c, limits, Silent(now, later), x)
  {
  }

  lemma BreakHasCause(c: Client, limits: Limits, now: real, x: nat)
    requires Sound(c, limits) && Unsettled(c, x)
    ensures Step(c, limits, Broken(now)).queue.ops[x].outcome == Cause(c, limits, Broken(now), x)
  {
  }

  lemma ExpiryHasCause(c: Client, limits: Limits, x: nat)
    requires Sound(c, limits) && Unsettled(c, x)
    ensures Step(c, limits, Expired).queue.ops[x].outcome == Cause(c, limits, Expired, x)
  {
  }

  lemma AnswerHasCause(c: Client, limits: Limits, x: nat)
    requires Sound(c, limits) && Unsettled(c, x)
    ensures Step(c, limits, Answered).queue.ops[x].outcome == Cause(c, limits, Answered, x)
  {
  }

  lemma NoticeHasNoCause(c: Client, limits: Limits, x: nat)
    requires Sound(c, limits) && Unsettled(c, x)
    ensures Step(c, limits, Noticed).queue.ops[x].outcome == Cause(c, limits, Noticed, x)
  {
  }

  lemma SendHasNoCause(c: Client, limits: Limits, x: nat)
    requires Sound(c, limits) && Unsettled(c, x)
    ensures Step(c, limits, Sent).queue.ops[x].outcome == Cause(c, limits, Sent, x)
  {
  }

  lemma TakeoverSettles(q: Queue, limits: Limits, generation: int, x: nat)
    requires Known(q) && Encodable(q, limits) && x < |q.ops| && q.ops[x].outcome == Open
    ensures SupersedeByPhysical(q, limits, generation).ops[x].outcome ==
      if SentFan(q) && q.active.value == x then Superseded else Open
  {
    if SentFan(q) && q.ops[q.active.value].outcome == Open {
      var id := q.active.value;
      var s := Update(q, id, q.ops[id].(outcome := Superseded, cancelRequested := true));
      assert SupersededByPhysical(q).ops[x].outcome == s.ops[x].outcome;
    }
  }

  lemma PhysicalHasCause(c: Client, limits: Limits, x: nat)
    requires Sound(c, limits) && Unsettled(c, x)
    ensures Step(c, limits, Physical).queue.ops[x].outcome == Cause(c, limits, Physical, x)
  {
    TakeoverSettles(c.queue, limits, c.generation, x);
  }

  lemma FrameHasNoCause(c: Client, limits: Limits, e: Occurrence, x: nat)
    requires Sound(c, limits) && Unsettled(c, x) && IsFrameEvent(e) && !e.Physical?
    ensures Step(c, limits, e).queue.ops[x].outcome == Cause(c, limits, e, x)
  {
  }

  lemma EnqueueHasCause(c: Client, limits: Limits, e: Occurrence, x: nat)
    requires Inv(c, limits) && Unsettled(c, x) && e.Enqueued?
    ensures Step(c, limits, e).queue.ops[x].outcome == Cause(c, limits, e, x)
  {
    SiftEffect(c.queue.ops, c.queue.pending, CoalesceFate(e.command));
    assert Sifted(c.queue, CoalesceFate(e.command)).ops[x]
        == Dealt(c.queue.ops[x], x in c.queue.pending, CoalesceFate(e.command));
  }

  lemma TakeHasCause(c: Client, limits: Limits, e: Occurrence, x: nat)
    requires Inv(c, limits) && Unsettled(c, x) && e.Taken?
    ensures Step(c, limits, e).queue.ops[x].outcome == Cause(c, limits, e, x)
  {
    SiftEffect(c.queue.ops, c.queue.pending, ExpiryFate(e.now));
    assert Sifted(c.queue, ExpiryFate(e.now)).ops[x] == Dealt(c.queue.ops[x], x in c.queue.pending, ExpiryFate(e.now));
  }

  lemma AbandonHasCause(c: Client, limits: Limits, id: nat, x: nat)
    requires Sound(c, limits) && Unsettled(c, x)
    ensures Step(c, limits, Abandoned(id)).queue.ops[x].outcome == Cause(c, limits, Abandoned(id), x)
  {
  }

  lemma FinishHasCause(c: Client, limits: Limits, x: nat)
    requires Inv(c, limits) && Unsettled(c, x)
    ensures Step(c, limits, Finished).queue.ops[x].outcome == Cause(c, limits, Finished, x)
  {
    if c.stopping {
      var q := ClearEchoes(c.queue);
      var current := if c.captured.Some? then c.captured else q.active;
      var s := if current.Some? then Settle(q, current.value, Stopped) else q;
      SiftEffect(s.ops, s.pending, ShutdownFate());
      assert InLine(c.queue, x) || c.captured == Some(x);
      assert Sifted(s, ShutdownFate()).ops[x] == Dealt(s.ops[x], x in s.pending, ShutdownFate());
    }
  }

  lemma LifecycleHasNoCause(c: Client, limits: Limits, e: Occurrence, x: nat)
    requires Sound(c, limits) && Unsettled(c, x) && (e.Connecting? || e.Disconnected? || e.Interrupted?)
    ensures Step(c, limits, e).queue.ops[x].outcome == Cause(c, limits, e, x)
  {
  }

  lemma WorkHasCause(c: Client, limits: Limits, e: Occurrence, x: nat)
    requires Sound(c, limits) && Unsettled(c, x) && IsWork(e)
    ensures x < |Step(c, limits, e).queue.ops| && Step(c, limits, e).queue.ops[x].outcome == Cause(c, limits, e, x)
  {
    match e
    case Executed(now, satisfied) => ExecutionHasCause(c, limits, now, satisfied, x);
    case Attempted(now) => AttemptHasCause(c, limits, now, x);
    case Sent => SendHasNoCause(c, limits, x);
    case Silent(now, later) => SilenceHasCause(c, limits, now, later, x);
    case Broken(now) => BreakHasCause(c, limits, now, x);
    case Expired => ExpiryHasCause(c, limits, x);
    case Answered => AnswerHasCause(c, limits, x);
    case Noticed => NoticeHasNoCause(c, limits, x);
    case _ =>
  }

  /** Whatever happens, an unsettled command ends exactly as the event causes it to. */
  lemma StepHasCause(c: Client, limits: Limits, e: Occurrence, x: nat)
    requires Inv(c, limits) && Unsettled(c, x)
    ensures x < |Step(c, limits, e).queue.ops| && Step(c, limits, e).queue.ops[x].outcome == Cause(c, limits, e, x)
  {
    InvIsSound(c, limits);
    StepMoves(c, limits, e);
    if IsWork(e) {
      WorkHasCause(c, limits, e, x);
    } else if e.Physical? {
      PhysicalHasCause(c, limits, x);
    } else if IsFrameEvent(e) {
      FrameHasNoCause(c, limits, e, x);
    } else if e.Enqueued? {
      EnqueueHasCause(c, limits, e, x);
    } else if e.Taken? {
      TakeHasCause(c, limits, e, x);
    } else if e.Abandoned? {
      AbandonHasCause(c, limits, e.id, x);
    } else if e.Finished? {
      FinishHasCause(c, limits, x);
    } else {
      LifecycleHasNoCause(c, limits, e, x);
    }
  }

  // ---- whole runs ----

  lemma NewCommandsAreOpen(c: Client, limits: Limits, e: Occurrence, x: nat)
    requires Inv(c, limits) && |c.queue.ops| <= x < |Step(c, limits, e).queue.ops|
    ensures Step(c, limits, e).queue.ops[x].outcome == Open
  {
    if e.Enqueued? {
      SiftEffect(c.queue.ops, c.queue.pending, CoalesceFate(e.command));
    } else {
      OnlyEnqueuesAdd(c, limits, e);
    }
  }

  lemma OnlyEnqueuesAdd(c: Client, limits: Limits, e: Occurrence)
    requires Inv(c, limits) && !e.Enqueued?
    ensures |Step(c, limits, e).queue.ops| == |c.queue.ops|
  {
    if IsWork(e) {
      WorkAddsNothing(c, limits, e);
    } else if IsFrameEvent(e) {
      FramesAddNothing(c, limits, e);
    }
  }

  lemma WorkAddsNothing(c: Client, limits: Limits, e: Occurrence)
    requires Inv(c, limits) && IsWork(e)
    ensures |Step(c, limits, e).queue.ops| == |c.queue.ops|
  {
  }

  lemma FramesAddNothing(c: Client, limits: Limits, e: Occurrence)
    requires Inv(c, limits) && IsFrameEvent(e)
    ensures |Step(c, limits, e).queue.ops| == |c.queue.ops|
  {
  }

  /** What the events of a run caused for a command, one after another: Open unless the event
    * found the command unsettled and ended it. */
  ghost function Causes(limits: Limits, events: seq<Occurrence>, x: nat): seq<Outcome> {
    if events == [] then []
    else
      var n := |events| - 1;
      var d := Reached(limits, events[..n]);
      Causes(limits, events[..n], x) + [if Unsettled(d, x) then Cause(d, limits, events[n], x) else Open]
  }

  predicate EndsAs(c: Client, x: nat, outcome: Outcome) {
    x < |c.queue.ops| && c.queue.ops[x].outcome == outcome
  }

  lemma LastEventSettles(limits: Limits, d: Client, e: Occurrence, x: nat, outcome: Outcome)
    requires Inv(d, limits) && outcome != Open
    ensures EndsAs(Step(d, limits, e), x, outcome) <==>
      EndsAs(d, x, outcome) || (Unsettled(d, x) && Cause(d, limits, e, x) == outcome)
  {
    StepMoves(d, limits, e);
    if Unsettled(d, x) {
      StepHasCause(d, limits, e, x);
    } else if x < |d.queue.ops| {
      assert Later(d.queue.ops[x], Step(d, limits, e).queue.ops[x], Sender(d, e) == Some(x));
    } else if x < |Step(d, limits, e).queue.ops| {
      NewCommandsAreOpen(d, limits, e, x);
    }
  }

  lemma ReachedNext(limits: Limits, events: seq<Occurrence>, d: Client)
    requires events != [] && d == Reached(limits, events[..|events| - 1])
    ensures Reached(limits, events) == Step(d, limits, events[|events| - 1])
  {
  }

  /** In every run a command has an outcome exactly if some event caused that outcome while it
    * was unsettled: done by its answer or by the state it asks for, too late by its deadline
    * or its budget, superseded by a newer command or by the device's controls, cancelled by
    * its caller, stopped by the end of a shutdown. */
  lemma {:induction false} OutcomesHaveCauses(limits: Limits, events: seq<Occurrence>, x: nat, outcome: Outcome)
    requires outcome != Open
    ensures EndsAs(Reached(limits, events), x, outcome) <==> outcome in Causes(limits, events, x)
  {
    if events != [] {
      var n := |events| - 1;
      var d := Reached(limits, events[..n]);
      OutcomesHaveCauses(limits, events[..n], x, outcome);
      ReachedNext(limits, events, d);
      LastEventSettles(limits, d, events[n], x, outcome);
    }
  }

  // ---- silence ----

  /** One unanswered send: checked, sent, and given up waiting for. */
  datatype Round = Round(checked: real, silent: real, later: real)

  function Unanswered(rounds: seq<Round>): seq<Occurrence> {
    if rounds == [] then []
    else
      var last := rounds[|rounds| - 1];
      Unanswered(rounds[..|rounds| - 1]) + [Attempted(last.checked)] + [Sent] + [Silent(last.silent, last.later)]
  }

  predicate InTime(rounds: seq<Round>, deadline: real) {
    forall i | 0 <= i < |rounds| ::
      rounds[i].checked < deadline && rounds[i].silent < deadline && rounds[i].later < deadline
  }

  /** The command is about to be sent again, or has gone back to the head of the line, by
    * whether it has sends left. */
  predicate TriesAgain(c: Client, limits: Limits, x: nat, sent: nat, deadline: real) {
    && x < |c.queue.ops| && c.queue.ops[x].outcome == Open && c.queue.ops[x].attempts == sent
    && c.queue.ops[x].deadline == deadline
    && if sent < limits.sends then c.phase == Looping && c.queue.active == Some(x)
       else c.phase == Idle && c.queue.pending != [] && c.queue.pending[0] == x
  }

  lemma CheckedForSending(c: Client, limits: Limits, x: nat, sent: nat, deadline: real, now: real)
    requires Inv(c, limits) && TriesAgain(c, limits, x, sent, deadline) && sent < limits.sends && now < deadline
    ensures var d := Step(c, limits, Attempted(now)); d.phase == Awaiting(false) && d.queue == c.queue
  {
  }

  lemma SentOnce(c: Client, limits: Limits, x: nat)
    requires Inv(c, limits) && c.phase == Awaiting(false) && c.queue.active == Some(x)
    ensures var d := Step(c, limits, Sent); var op := c.queue.ops[x];
      d.phase == Awaiting(true) && d.queue.active == Some(x) && d.queue.ops == c.queue.ops[x := op.(attempts := op.attempts + 1)]
  {
  }

  lemma SilenceTriesAgain(c: Client, limits: Limits, x: nat, sent: nat, deadline: real, now: real, later: real)
    requires Inv(c, limits) && c.phase == Awaiting(true) && c.queue.active == Some(x) && now < deadline && later < deadline
    requires var op := c.queue.ops[x]; op.outcome == Open && op.attempts == sent && op.deadline == deadline
    ensures TriesAgain(Step(c, limits, Silent(now, later)), limits, x, sent, deadline)
  {
    assert Accountable(c.queue.ops[x], limits);
  }

  lemma RunSnoc(c: Client, limits: Limits, events: seq<Occurrence>, e: Occurrence)
    requires Inv(c, limits)
    ensures Run(c, limits, events + [e]) == Step(Run(c, limits, events), limits, e)
  {
    assert (events + [e])[..|events|] == events;
  }

  lemma OneRound(c: Client, limits: Limits, events: seq<Occurrence>, x: nat, sent: nat, deadline: real, last: Round)
    requires Inv(c, limits) && TriesAgain(Run(c, limits, events), limits, x, sent, deadline) && sent < limits.sends
    requires InTime([last], deadline)
    ensures TriesAgain(Run(c, limits, events + [Attempted(last.checked)] + [Sent] + [Silent(last.silent, last.later)]),
                       limits, x, sent + 1, deadline)
  {
    var a := events + [Attempted(last.checked)];
    assert [last][0] == last;
    RunSnoc(c, limits, events, Attempted(last.checked));
    CheckedForSending(Run(c, limits, events), limits, x, sent, deadline, last.checked);
    RunSnoc(c, limits, a, Sent);
    SentOnce(Run(c, limits, a), limits, x);
    RunSnoc(c, limits, a + [Sent], Silent(last.silent, last.later));
    SilenceTriesAgain(Run(c, limits, a + [Sent]), limits, x, sent + 1, deadline, last.silent, last.later);
  }

  /** A command that is never answered is sent again and again on the same connection until
    * its budget is spent, and then returns to the head of the line: no send is lost and none
    * is added, as long as there is time. */
  lemma {:induction false} SilentCommandsUseTheirBudget(c: Client, limits: Limits, x: nat, sent: nat, deadline: real,
                                                        rounds: seq<Round>)
    requires Inv(c, limits) && sent < limits.sends && TriesAgain(c, limits, x, sent, deadline)
    requires InTime(rounds, deadline) && sent + |rounds| <= limits.sends
    ensures TriesAgain(Run(c, limits, Unanswered(rounds)), limits, x, sent + |rounds|, deadline)
  {
    if rounds != [] {
      var n := |rounds| - 1;
      SilentCommandsUseTheirBudget(c, limits, x, sent, deadline, rounds[..n]);
      OneRound(c, limits, Unanswered(rounds[..n]), x, sent + n, deadline, rounds[n]);
    }
  }

  // ---- the client never hangs on to a settled command ----

  lemma ExecutionReleases(c: Client, limits: Limits, e: Occurrence, x: nat)
    requires Inv(c, limits) && Active(c, x) && (e.Executed? || e.Attempted?) && (Succeeds(c, e, x) || RunsOut(c, limits, e, x))
    ensures Step(c, limits, e).phase.Idle? && Step(c, limits, e).queue.active.None?
  {
  }

  lemma ReplyReleases(c: Client, limits: Limits, e: Occurrence, x: nat)
    requires Inv(c, limits) && Active(c, x) && !e.Executed? && !e.Attempted? && (Succeeds(c, e, x) || RunsOut(c, limits, e, x))
    ensures Step(c, limits, e).phase.Idle? && Step(c, limits, e).queue.active.None?
  {
  }

  /** The event that ends the active command lets the client go on to the next. */
  lemma EndedCommandsAreReleased(c: Client, limits: Limits, e: Occurrence, x: nat)
    requires Inv(c, limits) && Active(c, x) && (Succeeds(c, e, x) || RunsOut(c, limits, e, x))
    ensures Step(c, limits, e).phase.Idle? && Step(c, limits, e).queue.active.None?
  {
    if e.Executed? || e.Attempted? {
      ExecutionReleases(c, limits, e, x);
    } else {
      ReplyReleases(c, limits, e, x);
    }
  }

  /** A command that was settled while its answer is awaited has been told to stop. */
  predicate Told(c: Client) {
    c.phase.Awaiting? && c.queue.active.Some? && c.queue.active.value < |c.queue.ops| ==>
      var op := c.queue.ops[c.queue.active.value]; op.outcome != Open ==> op.cancelRequested
  }

  lemma WorkKeepsTold(c: Client, limits: Limits, e: Occurrence)
    requires Inv(c, limits) && Told(c) && IsWork(e)
    ensures Told(Step(c, limits, e))
  {
  }

  lemma TakeoverKeepsTold(c: Client, limits: Limits)
    requires Inv(c, limits) && Told(c) && !c.stopping
    ensures Told(c.(queue := SupersedeByPhysical(c.queue, limits, c.generation)))
  {
    if SentFan(c.queue) && c.queue.ops[c.queue.active.value].outcome == Open {
      var id := c.queue.active.value;
      var q := Update(c.queue, id, c.queue.ops[id].(outcome := Superseded, cancelRequested := true));
      assert SupersededByPhysical(c.queue).ops[id] == q.ops[id];
    }
  }

  lemma FramesKeepTold(c: Client, limits: Limits, e: Occurrence)
    requires Inv(c, limits) && Told(c) && IsFrameEvent(e)
    ensures Told(Step(c, limits, e))
  {
    if !c.stopping {
      TakeoverKeepsTold(c, limits);
    }
  }

  lemma CallersKeepTold(c: Client, limits: Limits, e: Occurrence)
    requires Inv(c, limits) && Told(c) && !IsWork(e) && !IsFrameEvent(e)
    ensures Told(Step(c, limits, e))
  {
    if e.Enqueued? && !c.stopping && Encode(limits.profile, e.command).Ok? && c.queue.active.Some? {
      EnqueueKeepsActive(c.queue, limits, c.captured, e.command, e.now);
    }
  }

  lemma {:induction false} RunKeepsTold(c: Client, limits: Limits, events: seq<Occurrence>)
    requires Inv(c, limits) && Told(c)
    ensures Told(Run(c, limits, events))
  {
    if events != [] {
      var n := |events| - 1;
      var d := Run(c, limits, events[..n]);
      RunKeepsTold(c, limits, events[..n]);
      if IsWork(events[n]) {
        WorkKeepsTold(d, limits, events[n]);
      } else if IsFrameEvent(events[n]) {
        FramesKeepTold(d, limits, events[n]);
      } else {
        CallersKeepTold(d, limits, events[n]);
      }
    }
  }

  lemma SettledIsLeft(c: Client, limits: Limits, e: Occurrence, x: nat)
    requires Inv(c, limits) && Told(c) && Active(c, x) && c.queue.ops[x].outcome != Open
    requires (c.phase.Preparing? && e.Executed?) || (c.phase.Looping? && e.Attempted?) || (c.phase.Awaiting? && e.Noticed?)
    ensures Step(c, limits, e).phase.Idle? && Step(c, limits, e).queue.active.None?
  {
  }

  /** In every run a client whose active command has been settled behind its back, by the
    * caller or by the device, leaves it at its own next step: before executing it, before the
    * next send, or on noticing while it waits for the answer. */
  lemma SettledCommandsAreLeft(limits: Limits, events: seq<Occurrence>, c: Client, e: Occurrence, x: nat)
    requires c == Reached(limits, events) && Active(c, x) && c.queue.ops[x].outcome != Open
    requires (c.phase.Preparing? && e.Executed?) || (c.phase.Looping? && e.Attempted?) || (c.phase.Awaiting? && e.Noticed?)
    ensures Step(c, limits, e).phase.Idle? && Step(c, limits, e).queue.active.None?
  {
    IdleClientSatisfiesInv(limits);
    RunKeepsTold(IDLE_CLIENT, limits, events);
    SettledIsLeft(c, limits, e, x);
  }
}
