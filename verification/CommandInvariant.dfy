/** Conservation and order of commands: every step keeps the client's invariant. */
module CommandInvariant {
  import opened Models
  import opened Frame
  import opened Protocol
  import opened Operations
  import opened CommandLifecycle

  // ---- ascending lists ----

  lemma AscendingTail(s: seq<nat>)
    requires Ascending(s) && s != []
    ensures Ascending(s[1..]) && s[0] !in s[1..] && forall y | y in s[1..] :: s[0] < y
  {
  }

  lemma AscendingCons(x: nat, s: seq<nat>)
    requires Ascending(s) && forall y | y in s :: x < y
    ensures Ascending([x] + s)
  {
    assert forall i | 0 <= i < |s| :: s[i] in s;
  }

  lemma AscendingSnoc(s: seq<nat>, x: nat)
    requires Ascending(s) && forall y | y in s :: y < x
    ensures Ascending(s + [x])
  {
    assert forall i | 0 <= i < |s| :: s[i] in s;
  }

  lemma {:induction false} WithoutOne(s: seq<nat>, x: nat)
    requires Ascending(s)
    ensures Ascending(Without(s, x)) && x !in Without(s, x)
  {
    if s != [] {
      AscendingTail(s);
      if s[0] != x {
        WithoutOne(s[1..], x);
        assert forall y | y in Without(s[1..], x) :: y in s[1..];
        AscendingCons(s[0], Without(s[1..], x));
      }
    }
  }

  // ---- going through the pending operations ----

  /** What sifting leaves of one operation. */
  function Dealt(op: Operation, isPending: bool, fate: Operation -> Fate): Operation {
    if isPending && fate(op).Close? then Closed(op, fate(op).outcome) else op
  }

  ghost predicate SiftedWell(ops: seq<Operation>, pending: seq<nat>, fate: Operation -> Fate,
                             o: seq<Operation>, p: seq<nat>)
    requires |o| == |ops| && forall x | x in pending :: x < |ops|
  {
    && Ascending(p)
    && (forall x | x in p :: x in pending)
    && (forall x | x in pending :: x in p <==> fate(ops[x]).Keep?)
    && (forall x: nat | x < |ops| :: o[x] == Dealt(ops[x], x in pending, fate))
  }

  lemma SiftStep(ops: seq<Operation>, before: seq<nat>, last: nat, fate: Operation -> Fate,
                 o: seq<Operation>, p: seq<nat>)
    requires last < |ops| && |o| == |ops|
    requires forall x | x in before :: x < last
    requires SiftedWell(ops, before, fate, o, p)
    ensures o[last] == ops[last]
    ensures var f := fate(o[last]);
      SiftedWell(ops, before + [last], fate,
        if f.Close? then o[last := Closed(o[last], f.outcome)] else o, if f.Keep? then p + [last] else p)
  {
    assert last !in before;
    var f, all := fate(o[last]), before + [last];
    var o', p' := if f.Close? then o[last := Closed(o[last], f.outcome)] else o, if f.Keep? then p + [last] else p;
    assert forall x :: x in all <==> x in before || x == last;
    assert forall x :: x in p' <==> x in p || (f.Keep? && x == last);
    assert Ascending(p') by {
      AscendingSnoc(p, last);
    }
    forall x: nat | x < |ops|
      ensures o'[x] == Dealt(ops[x], x in all, fate)
    {
    }
  }

  /** Sifting keeps exactly what its fate keeps, in order, and touches only the rest. */
  lemma {:induction false} SiftEffect(ops: seq<Operation>, pending: seq<nat>, fate: Operation -> Fate)
    requires Ascending(pending) && forall x | x in pending :: x < |ops|
    ensures var (o, p) := Sift(ops, pending, fate); SiftedWell(ops, pending, fate, o, p)
  {
    if pending != [] {
      var n := |pending| - 1;
      var before := pending[..n];
      assert pending == before + [pending[n]] && pending[n] in pending;
      assert forall x | x in before :: x in pending;
      SiftEffect(ops, before, fate);
      var (o, p) := Sift(ops, before, fate);
      SiftStep(ops, before, pending[n], fate, o, p);
    }
  }

  // ---- the queue operations keep order and place ----

  ghost predicate Core(q: Queue, limits: Limits, captured: Option<nat>) {
    Ordered(q) && Housed(q, captured) && Paired(q) && Budgeted(q, limits) && Encodable(q, limits)
  }

  /** Operations keep their command, and their sends stay within the budget. */
  predicate SameCommands(q: Queue, r: Queue, limits: Limits) {
    |r.ops| == |q.ops|
    && forall x: nat | x < |q.ops| :: r.ops[x].command == q.ops[x].command && Accountable(r.ops[x], limits)
  }

  lemma CoreShrinks(q: Queue, r: Queue, limits: Limits, captured: Option<nat>, captured': Option<nat>)
    requires Core(q, limits, captured) && SameCommands(q, r, limits)
    requires Ordered(r) && Housed(r, captured')
    requires forall x: nat | InLine(r, x) :: InLine(q, x)
    ensures Core(r, limits, captured')
  {
    forall x: nat, y: nat, z: nat | InLine(r, x) && InLine(r, y) && InLine(r, z) && x < y < z
      ensures CommandKind(r.ops[y].command) != CommandKind(r.ops[z].command)
    {
      assert InLine(q, x) && InLine(q, y) && InLine(q, z);
    }
    forall x: nat | x < |r.ops|
      ensures Encode(limits.profile, r.ops[x].command).Ok?
    {
      assert r.ops[x].command == q.ops[x].command;
    }
  }

  lemma SiftedKeeps(q: Queue, limits: Limits, captured: Option<nat>, fate: Operation -> Fate)
    requires Core(q, limits, captured)
    requires forall x | x in q.pending :: fate(q.ops[x]).Keep? || fate(q.ops[x]).Close?
    requires forall x | x in q.pending && fate(q.ops[x]).Close? :: fate(q.ops[x]).outcome != Open && fate(q.ops[x]).outcome != Done
    ensures Core(Sifted(q, fate), limits, captured)
    ensures SiftedWell(q.ops, q.pending, fate, Sifted(q, fate).ops, Sifted(q, fate).pending)
  {
    SiftEffect(q.ops, q.pending, fate);
    var r := Sifted(q, fate);
    assert forall x: nat | x < |q.ops| :: r.ops[x] == Dealt(q.ops[x], x in q.pending, fate);
    assert SameCommands(q, r, limits);
    assert forall x: nat | InLine(r, x) :: InLine(q, x);
    CoreShrinks(q, r, limits, captured, captured);
  }

  lemma EnqueueKeeps(q: Queue, limits: Limits, captured: Option<nat>, command: Command, now: real)
    requires Core(q, limits, captured) && Encode(limits.profile, command).Ok?
    ensures Core(Enqueue(q, limits, command, now), limits, captured)
  {
    var s := Sifted(q, CoalesceFate(command));
    SiftedKeeps(q, limits, captured, CoalesceFate(command));
    AppendKeeps(s, limits, captured, Enqueue(q, limits, command, now).ops[|q.ops|], Enqueue(q, limits, command, now));
  }

  lemma AppendKeeps(s: Queue, limits: Limits, captured: Option<nat>, op: Operation, r: Queue)
    requires Core(s, limits, captured)
    requires op.outcome == Open && Accountable(op, limits) && Encode(limits.profile, op.command).Ok?
    requires forall x | x in s.pending :: CommandKind(s.ops[x].command) != CommandKind(op.command)
    requires r.ops == s.ops + [op] && r.pending == s.pending + [|s.ops|] && r.active == s.active
    ensures Core(r, limits, captured)
  {
    var n := |s.ops|;
    assert forall x: nat :: InLine(r, x) <==> InLine(s, x) || x == n;
    AscendingSnoc(s.pending, n);
    assert Ordered(r);
    assert Housed(r, captured) by {
      assert InLine(r, n);
    }
    forall x: nat, y: nat, z: nat | InLine(r, x) && InLine(r, y) && InLine(r, z) && x < y < z
      ensures CommandKind(r.ops[y].command) != CommandKind(r.ops[z].command)
    {
      if z < n {
        assert InLine(s, x) && InLine(s, y) && InLine(s, z);
      } else {
        assert y in s.pending;
      }
    }
  }

  lemma ActivateKeeps(d: Queue, limits: Limits)
    requires Core(d, limits, None) && d.active.None? && d.pending != []
    ensures Core(d.(pending := d.pending[1..], active := Some(d.pending[0])), limits, None)
  {
    var r := d.(pending := d.pending[1..], active := Some(d.pending[0]));
    AscendingTail(d.pending);
    assert d.pending[0] in d.pending;
    assert d.pending == [d.pending[0]] + r.pending;
    assert forall x | x in r.pending :: x in d.pending;
    assert Known(r);
    assert forall x: nat :: InLine(r, x) <==> InLine(d, x);
    CoreShrinks(d, r, limits, None, None);
  }

  lemma TakeKeeps(q: Queue, limits: Limits, now: real)
    requires Core(q, limits, None) && q.active.None?
    ensures Core(TakeNext(q, now), limits, None)
  {
    SiftedKeeps(q, limits, None, ExpiryFate(now));
    var d := Sifted(q, ExpiryFate(now));
    if d.pending != [] {
      ActivateKeeps(d, limits);
    }
  }

  /** Rewriting one operation in place; while it is pending it stays open. */
  lemma UpdateKeeps(q: Queue, limits: Limits, captured: Option<nat>, id: nat, op: Operation, r: Queue)
    requires Core(q, limits, captured) && id < |q.ops|
    requires r.ops == q.ops[id := op] && r.pending == q.pending && r.active == q.active
    requires op.command == q.ops[id].command && Accountable(op, limits)
    requires op.outcome == q.ops[id].outcome || (op.outcome != Open && id !in q.pending)
    ensures Core(r, limits, captured)
  {
    assert forall x: nat :: InLine(r, x) <==> InLine(q, x);
    CoreShrinks(q, r, limits, captured, captured);
  }

  /** Releasing the active operation: unless it is settled it leaves the line. */
  lemma ReleaseKeeps(q: Queue, limits: Limits, id: nat)
    requires Core(q, limits, None) && q.active == Some(id)
    ensures Core(Release(q, id), limits, if q.ops[id].outcome == Open then Some(id) else None)
  {
    var r := Release(q, id);
    CoreShrinks(q, r, limits, None, if q.ops[id].outcome == Open then Some(id) else None);
  }

  lemma SettleKeeps(q: Queue, limits: Limits, captured: Option<nat>, id: nat, outcome: Outcome)
    requires Core(q, limits, captured) && id < |q.ops| && id !in q.pending && outcome != Open
    requires outcome == Done ==> !q.ops[id].force || q.ops[id].attempts > 0
    ensures Core(Settle(q, id, outcome), limits, captured) && Settle(q, id, outcome).ops[id].outcome != Open
  {
    if q.ops[id].outcome == Open {
      UpdateKeeps(q, limits, captured, id, q.ops[id].(outcome := outcome), Settle(q, id, outcome));
    }
  }

  /** An operation put back at the head of the queue as it is released stays in line. */
  lemma RequeueKeeps(q: Queue, limits: Limits, id: nat, now: real)
    requires Core(q, limits, None) && q.active == Some(id)
    ensures Core(Release(Requeue(q, id, now), id), limits, None)
  {
    if q.ops[id].outcome != Open {
      ReleaseKeeps(q, limits, id);
    } else if now >= q.ops[id].deadline {
      SettleKeeps(q, limits, None, id, DeadlineExceeded);
      ReleaseKeeps(Settle(q, id, DeadlineExceeded), limits, id);
    } else {
      var r := Release(Requeue(q, id, now), id);
      assert r.pending == [id] + q.pending;
      AscendingCons(id, q.pending);
      assert forall x: nat :: InLine(r, x) <==> InLine(q, x);
      CoreShrinks(q, r, limits, None, None);
    }
  }

  /** A settled operation leaves the pending queue. */
  lemma RemovalKeeps(q: Queue, limits: Limits, captured: Option<nat>, id: nat, op: Operation, r: Queue)
    requires Core(q, limits, captured) && id < |q.ops|
    requires r.ops == q.ops[id := op] && r.pending == Without(q.pending, id) && r.active == q.active
    requires op.command == q.ops[id].command && Accountable(op, limits) && op.outcome != Open
    ensures Core(r, limits, captured)
  {
    WithoutOne(q.pending, id);
    assert Ordered(r);
    CoreShrinks(q, r, limits, captured, captured);
  }

  lemma CancelShape(q: Queue, limits: Limits, id: nat, generation: Option<int>)
    requires Known(q) && Encodable(q, limits) && id < |q.ops|
    ensures var r := Cancel(q, limits, id, generation); var op := r.ops[id];
      && r.ops == q.ops[id := op] && r.pending == Without(q.pending, id) && r.active == q.active
      && op.command == q.ops[id].command && op.attempts == q.ops[id].attempts && op.outcome != Open
  {
  }

  lemma CancelKeeps(q: Queue, limits: Limits, captured: Option<nat>, id: nat, generation: Option<int>)
    requires Core(q, limits, captured) && id < |q.ops|
    ensures Core(Cancel(q, limits, id, generation), limits, captured)
  {
    var r := Cancel(q, limits, id, generation);
    CancelShape(q, limits, id, generation);
    assert Accountable(q.ops[id], limits);
    RemovalKeeps(q, limits, captured, id, r.ops[id], r);
  }

  lemma SendKeeps(q: Queue, limits: Limits, captured: Option<nat>, id: nat, generation: int)
    requires Core(q, limits, captured) && id < |q.ops| && q.ops[id].attempts < limits.sends
    ensures Core(RecordSend(q, limits, id, generation), limits, captured)
  {
    UpdateKeeps(q, limits, captured, id, q.ops[id].(attempts := q.ops[id].attempts + 1),
                RecordSend(q, limits, id, generation));
  }

  lemma SupersededKeeps(q: Queue, limits: Limits, captured: Option<nat>)
    requires Core(q, limits, captured) && SentFan(q)
    ensures Core(SupersededByPhysical(q), limits, captured)
  {
    var id := q.active.value;
    var s := Update(q, id, q.ops[id].(outcome := Superseded, cancelRequested := true));
    UpdateKeeps(q, limits, captured, id, s.ops[id], s);
    var r := SupersededByPhysical(q);
    assert forall x: nat | x < |s.ops| ::
      r.ops[x] == s.ops[x] || (x in s.pending && r.ops[x] == s.ops[x].(force := true));
    assert forall x: nat :: InLine(r, x) <==> InLine(s, x);
    CoreShrinks(s, r, limits, captured, captured);
  }

  lemma SupersedeKeeps(q: Queue, limits: Limits, captured: Option<nat>, generation: int)
    requires Core(q, limits, captured)
    ensures Core(SupersedeByPhysical(q, limits, generation), limits, captured)
  {
    if SentFan(q) && q.ops[q.active.value].outcome == Open {
      var s := SupersededByPhysical(q);
      SupersededKeeps(q, limits, captured);
      OtherEchoesKeep(s, limits, captured, Reserve(s, limits, generation));
    }
  }

  lemma OtherEchoesKeep(q: Queue, limits: Limits, captured: Option<nat>, r: Queue)
    requires Core(q, limits, captured)
    requires r == q.(superseded := r.superseded, cancelled := r.cancelled)
    ensures Core(r, limits, captured)
  {
    CoreShrinks(q, r, limits, captured, captured);
  }

  /** After shutdown nothing is left unsettled. */
  lemma ShutdownKeeps(q: Queue, limits: Limits, captured: Option<nat>)
    requires Core(q, limits, captured) && q.active.None?
    ensures Core(FailForShutdown(q, captured), limits, None)
    ensures forall x: nat | x < |q.ops| :: FailForShutdown(q, captured).ops[x].outcome != Open
    ensures forall x :: x !in FailForShutdown(q, captured).pending
  {
    var c := ClearEchoes(q);
    OtherEchoesKeep(q, limits, captured, c);
    if captured.Some? {
      SettleKeeps(c, limits, captured, captured.value, Stopped);
    }
    var s := if captured.Some? then Settle(c, captured.value, Stopped) else c;
    CoreShrinks(s, s, limits, captured, None);
    SiftedKeeps(s, limits, None, ShutdownFate());
    var r := Sifted(s, ShutdownFate());
    assert forall x :: x !in r.pending;
  }
}
