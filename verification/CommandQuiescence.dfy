/** Whoever waits for a command to come to rest is told: an operation that is no longer in
  * line has been marked as quiesced. */
module CommandQuiescence {
  import opened Models
  import opened Protocol
  import opened Operations
  import opened CommandLifecycle
  import opened CommandInvariant
  import opened CommandRuns
  import opened CommandTheorems

  predicate Rests(q: Queue, x: nat)
    requires x < |q.ops|
  {
    InLine(q, x) || q.ops[x].quiesced
  }

  /** Every operation is in line or at rest. */
  ghost predicate Quiet(q: Queue) {
    forall x: nat | x < |q.ops| :: Rests(q, x)
  }

  lemma SiftQuiets(q: Queue, fate: Operation -> Fate)
    requires Quiet(q) && Ordered(q) && forall x | x in q.pending :: !fate(q.ops[x]).Drop?
    ensures Quiet(Sifted(q, fate)) && |Sifted(q, fate).ops| == |q.ops|
  {
    SiftEffect(q.ops, q.pending, fate);
    var r := Sifted(q, fate);
    forall x: nat | x < |q.ops|
      ensures Rests(r, x)
    {
      assert Rests(q, x);
      assert r.ops[x] == Dealt(q.ops[x], x in q.pending, fate);
    }
  }

  lemma SettleQuiets(q: Queue, id: nat, outcome: Outcome)
    requires Quiet(q) && id < |q.ops|
    ensures Quiet(Settle(q, id, outcome))
  {
    forall x: nat | x < |q.ops|
      ensures Rests(Settle(q, id, outcome), x)
    {
      assert Rests(q, x);
    }
  }

  lemma ReleaseQuiets(q: Queue, id: nat)
    requires Quiet(q) && id < |q.ops|
    ensures Quiet(Release(q, id))
  {
    forall x: nat | x < |q.ops|
      ensures Rests(Release(q, id), x)
    {
      assert Rests(q, x);
    }
  }

  lemma RequeueQuiets(q: Queue, id: nat, now: real)
    requires Quiet(q) && id < |q.ops|
    ensures Quiet(Requeue(q, id, now))
  {
    SettleQuiets(q, id, DeadlineExceeded);
    forall x: nat | x < |q.ops|
      ensures Rests(q.(pending := [id] + q.pending), x)
    {
      assert Rests(q, x);
    }
  }

  /** Queues that agree on what is in line and at rest. */
  lemma SameQuiet(q: Queue, r: Queue)
    requires Quiet(q) && |r.ops| == |q.ops| && r.pending == q.pending && r.active == q.active
    requires forall x: nat | x < |q.ops| :: q.ops[x].quiesced ==> r.ops[x].quiesced
    ensures Quiet(r)
  {
    forall x: nat | x < |r.ops|
      ensures Rests(r, x)
    {
      assert Rests(q, x);
    }
  }

  lemma FinishQuiets(c: Client, q: Queue)
    requires Quiet(q) && q.active.Some? && q.active.value < |q.ops|
    ensures Quiet(Finish(c, q).queue)
  {
    ReleaseQuiets(q, q.active.value);
  }

  lemma SettlingQuiets(c: Client, outcome: Outcome)
    requires Known(c.queue) && Quiet(c.queue) && c.queue.active.Some?
    ensures Quiet(Finish(c, Settle(c.queue, c.queue.active.value, outcome)).queue) && Quiet(Finish(c, c.queue).queue)
  {
    SettleQuiets(c.queue, c.queue.active.value, outcome);
    FinishQuiets(c, Settle(c.queue, c.queue.active.value, outcome));
    FinishQuiets(c, c.queue);
  }

  lemma PreparationQuiets(c: Client, limits: Limits, e: Occurrence)
    requires Inv(c, limits) && Quiet(c.queue) && (e.Executed? || e.Attempted?)
    ensures Quiet(Step(c, limits, e).queue)
  {
    if c.queue.active.Some? {
      SettlingQuiets(c, Done);
      SettlingQuiets(c, DeadlineExceeded);
    }
  }

  lemma SendQuiets(c: Client, limits: Limits)
    requires Inv(c, limits) && Quiet(c.queue)
    ensures Quiet(Step(c, limits, Sent).queue)
  {
    SameQuiet(c.queue, Step(c, limits, Sent).queue);
  }

  lemma InterruptionQuiets(c: Client, limits: Limits, e: Occurrence)
    requires Inv(c, limits) && Quiet(c.queue) && (e.Silent? || e.Broken?)
    ensures Quiet(Step(c, limits, e).queue)
  {
    if c.queue.active.Some? {
      var now := if e.Silent? then e.later else e.now;
      RequeueQuiets(c.queue, c.queue.active.value, now);
      FinishQuiets(c, Requeue(c.queue, c.queue.active.value, now));
    }
  }

  lemma ExpiryQuiets(c: Client, limits: Limits)
    requires Inv(c, limits) && Quiet(c.queue)
    ensures Quiet(Step(c, limits, Expired).queue)
  {
    if c.queue.active.Some? {
      SettlingQuiets(c, DeadlineExceeded);
    }
  }

  lemma AnswerQuiets(c: Client, limits: Limits)
    requires Inv(c, limits) && Quiet(c.queue)
    ensures Quiet(Step(c, limits, Answered).queue)
  {
    if c.queue.active.Some? {
      SettlingQuiets(c, Done);
    }
  }

  lemma NoticeQuiets(c: Client, limits: Limits)
    requires Inv(c, limits) && Quiet(c.queue)
    ensures Quiet(Step(c, limits, Noticed).queue)
  {
    if c.queue.active.Some? {
      SettlingQuiets(c, Done);
    }
  }

  lemma TakeoverQuiets(q: Queue, limits: Limits, generation: int)
    requires Quiet(q) && Known(q) && Encodable(q, limits)
    ensures Quiet(SupersedeByPhysical(q, limits, generation))
  {
    if SentFan(q) && q.ops[q.active.value].outcome == Open {
      var id := q.active.value;
      var s := Update(q, id, q.ops[id].(outcome := Superseded, cancelRequested := true));
      var r := SupersededByPhysical(q);
      forall x: nat | x < |q.ops| && q.ops[x].quiesced
        ensures r.ops[x].quiesced
      {
        assert r.ops[x] == s.ops[x] || r.ops[x] == s.ops[x].(force := true);
      }
      SameQuiet(q, r);
      SameQuiet(r, SupersedeByPhysical(q, limits, generation));
    }
  }

  lemma FramesQuiet(c: Client, limits: Limits, e: Occurrence)
    requires Inv(c, limits) && Quiet(c.queue) && IsFrameEvent(e)
    ensures Quiet(Step(c, limits, e).queue)
  {
    if e.Physical? {
      TakeoverQuiets(c.queue, limits, c.generation);
    } else {
      SameQuiet(c.queue, Step(c, limits, e).queue);
    }
  }

  lemma EnqueueQuiets(q: Queue, limits: Limits, command: Command, now: real)
    requires Quiet(q) && Ordered(q)
    ensures Quiet(Enqueue(q, limits, command, now))
  {
    SiftQuiets(q, CoalesceFate(command));
    var s, r := Sifted(q, CoalesceFate(command)), Enqueue(q, limits, command, now);
    forall x: nat | x < |r.ops|
      ensures Rests(r, x)
    {
      if x < |q.ops| {
        assert Rests(s, x) && r.ops[x] == s.ops[x];
      } else {
        assert r.pending[|r.pending| - 1] == x;
      }
    }
  }

  lemma TakeQuiets(c: Client, limits: Limits, now: real)
    requires Inv(c, limits) && Quiet(c.queue)
    ensures Quiet(TakeNext(c.queue, now))
  {
    SiftQuiets(c.queue, ExpiryFate(now));
    var d, r := Sifted(c.queue, ExpiryFate(now)), TakeNext(c.queue, now);
    forall x: nat | x < |r.ops|
      ensures Rests(r, x)
    {
      assert Rests(d, x);
      assert d.pending != [] ==> d.pending == [d.pending[0]] + d.pending[1..];
    }
  }

  lemma CancelQuiets(q: Queue, limits: Limits, id: nat, generation: Option<int>)
    requires Quiet(q) && Known(q) && Encodable(q, limits) && id < |q.ops|
    ensures Quiet(Cancel(q, limits, id, generation))
  {
    var r := Cancel(q, limits, id, generation);
    forall x: nat | x < |r.ops|
      ensures Rests(r, x)
    {
      assert Rests(q, x);
    }
  }

  lemma CallersQuiet(c: Client, limits: Limits, e: Occurrence)
    requires Inv(c, limits) && Quiet(c.queue) && (e.Enqueued? || e.Taken? || e.Abandoned?)
    ensures Quiet(Step(c, limits, e).queue)
  {
    if e.Enqueued? {
      EnqueueQuiets(c.queue, limits, e.command, e.now);
    } else if e.Taken? {
      TakeQuiets(c, limits, e.now);
    } else if e.id < |c.queue.ops| {
      CancelQuiets(c.queue, limits, e.id, Some(c.generation));
    }
  }

  lemma InterruptQuiets(c: Client)
    requires Quiet(c.queue) && Known(c.queue)
    ensures Quiet(Interrupt(c).queue)
  {
    var q := ClearEchoes(c.queue);
    SameQuiet(c.queue, q);
    if q.active.Some? {
      ReleaseQuiets(q, q.active.value);
    }
  }

  lemma ShutdownQuiets(q: Queue, captured: Option<nat>)
    requires Quiet(q) && Ordered(q) && (captured.Some? ==> captured.value < |q.ops|)
    ensures Quiet(FailForShutdown(q, captured))
  {
    var c := ClearEchoes(q);
    var current := if captured.Some? then captured else q.active;
    SameQuiet(q, c);
    if current.Some? {
      SettleQuiets(c, current.value, Stopped);
    }
    SiftQuiets(if current.Some? then Settle(c, current.value, Stopped) else c, ShutdownFate());
  }

  lemma ConnectionQuiets(c: Client, limits: Limits, e: Occurrence)
    requires Inv(c, limits) && Quiet(c.queue) && (e.Connecting? || e.Disconnected?)
    ensures Quiet(Step(c, limits, e).queue)
  {
    SameQuiet(c.queue, ClearEchoes(c.queue));
  }

  lemma StopQuiets(c: Client, limits: Limits)
    requires Inv(c, limits) && Quiet(c.queue)
    ensures Quiet(Step(c, limits, Interrupted).queue)
  {
    InterruptQuiets(c);
  }

  lemma FinishingQuiets(c: Client, limits: Limits)
    requires Inv(c, limits) && Quiet(c.queue)
    ensures Quiet(Step(c, limits, Finished).queue)
  {
    ShutdownQuiets(c.queue, c.captured);
  }

  lemma StepQuiets(c: Client, limits: Limits, e: Occurrence)
    requires Inv(c, limits) && Quiet(c.queue)
    ensures Quiet(Step(c, limits, e).queue)
  {
    if e.Executed? || e.Attempted? {
      PreparationQuiets(c, limits, e);
    } else if e.Sent? {
      SendQuiets(c, limits);
    } else if e.Silent? || e.Broken? {
      InterruptionQuiets(c, limits, e);
    } else if e.Expired? {
      ExpiryQuiets(c, limits);
    } else if e.Answered? {
      AnswerQuiets(c, limits);
    } else if e.Noticed? {
      NoticeQuiets(c, limits);
    } else if IsFrameEvent(e) {
      FramesQuiet(c, limits, e);
    } else if e.Enqueued? || e.Taken? || e.Abandoned? {
      CallersQuiet(c, limits, e);
    } else if e.Interrupted? {
      StopQuiets(c, limits);
    } else if e.Finished? {
      FinishingQuiets(c, limits);
    } else {
      ConnectionQuiets(c, limits, e);
    }
  }

  lemma {:induction false} RunQuiets(c: Client, limits: Limits, events: seq<Occurrence>)
    requires Inv(c, limits) && Quiet(c.queue)
    ensures Quiet(Run(c, limits, events).queue)
  {
    if events != [] {
      var n := |events| - 1;
      RunQuiets(c, limits, events[..n]);
      StepQuiets(Run(c, limits, events[..n]), limits, events[n]);
    }
  }

  /** In every run a command that is neither active nor waiting has been marked as at rest, so
    * that nobody waits for it in vain. */
  lemma CommandsComeToRest(limits: Limits, events: seq<Occurrence>, c: Client, x: nat)
    requires c == Reached(limits, events) && x < |c.queue.ops| && !InLine(c.queue, x)
    ensures c.queue.ops[x].quiesced
  {
    IdleClientSatisfiesInv(limits);
    RunQuiets(IDLE_CLIENT, limits, events);
    assert Rests(c.queue, x);
  }
}
