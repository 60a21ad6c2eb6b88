/** The mutable command controller: every method does to its fields what the function of
  * the same name does to the queue value. */
module OperationsController {
  import opened Models
  import opened Protocol
  import Q = Operations

  class CommandOperationController {
    const limits: Q.Limits
    var ops: seq<Q.Operation>
    var pending: seq<nat>
    var active: Option<nat>
    var fanModesRequiringConfirmation: set<FanMode>
    var supersededFanEchoes: seq<Q.Echo>
    var cancelledFanEchoes: seq<Q.Echo>

    ghost function View(): Q.Queue
      reads this
    {
      Q.Queue(ops, pending, active, fanModesRequiringConfirmation, supersededFanEchoes, cancelledFanEchoes)
    }

    ghost predicate Valid()
      reads this
    {
      Q.Known(View())
    }

    constructor (limits: Q.Limits)
      ensures this.limits == limits && Valid() && View() == Q.EMPTY_QUEUE
    {
      this.limits := limits;
      ops, pending, active := [], [], None;
      fanModesRequiringConfirmation, supersededFanEchoes, cancelledFanEchoes := {}, [], [];
    }

    method Enqueue(command: Command, now: real) returns (id: nat)
      requires Valid()
      modifies this
      ensures Valid() && View() == Q.Enqueue(old(View()), limits, command, now)
      ensures id == old(|ops|)
    {
      id := |ops|;
      var force := false;
      if command.SetFanMode? && command.mode in fanModesRequiringConfirmation {
        force := true;
        fanModesRequiringConfirmation := fanModesRequiringConfirmation - {command.mode};
      }
      CoalescePending(command);
      ops := ops + [Q.Operation(command, now + limits.window, 0, force, false, false, Q.Open)];
      pending := pending + [id];
    }

    method CoalescePending(command: Command)
      requires Valid()
      modifies this
      ensures Valid() && View() == Q.Sifted(old(View()), Q.CoalesceFate(command))
    {
      var retained: seq<nat> := [];
      ghost var fate := Q.CoalesceFate(command);
      ghost var done := 0;
      while pending != []
        invariant done <= |old(pending)| && pending == old(pending)[done..]
        invariant forall x | x in old(pending)[..done] :: x in old(pending)
        invariant (ops, retained) == Q.Sift(old(ops), old(pending)[..done], fate)
        invariant active == old(active) && fanModesRequiringConfirmation == old(fanModesRequiringConfirmation)
        invariant supersededFanEchoes == old(supersededFanEchoes) && cancelledFanEchoes == old(cancelledFanEchoes)
        decreases |pending|
      {
        var x := pending[0];
        assert x in old(pending);
        assert old(pending)[..done + 1][..done] == old(pending)[..done];
        pending := pending[1..];
        done := done + 1;
        if Q.CommandKind(ops[x].command) == Q.CommandKind(command) && ops[x].outcome == Q.Open {
          ops := ops[x := ops[x].(outcome := Q.Superseded, quiesced := true)];
        } else {
          retained := retained + [x];
        }
      }
      assert old(pending)[..done] == old(pending);
      pending := retained;
    }

    method DiscardExpired(now: real)
      requires Valid()
      modifies this
      ensures Valid() && View() == Q.Sifted(old(View()), Q.ExpiryFate(now))
    {
      var retained: seq<nat> := [];
      ghost var fate := Q.ExpiryFate(now);
      ghost var done := 0;
      while pending != []
        invariant done <= |old(pending)| && pending == old(pending)[done..]
        invariant forall x | x in old(pending)[..done] :: x in old(pending)
        invariant (ops, retained) == Q.Sift(old(ops), old(pending)[..done], fate)
        invariant active == old(active) && fanModesRequiringConfirmation == old(fanModesRequiringConfirmation)
        invariant supersededFanEchoes == old(supersededFanEchoes) && cancelledFanEchoes == old(cancelledFanEchoes)
        decreases |pending|
      {
        var x := pending[0];
        assert x in old(pending);
        assert old(pending)[..done + 1][..done] == old(pending)[..done];
        pending := pending[1..];
        done := done + 1;
        if ops[x].outcome == Q.Open {
          if now >= ops[x].deadline {
            ops := ops[x := ops[x].(outcome := Q.DeadlineExceeded, quiesced := true)];
          } else {
            retained := retained + [x];
          }
        }
      }
      assert old(pending)[..done] == old(pending);
      pending := retained;
    }

    method TakeNext(now: real) returns (taken: Option<nat>)
      requires Valid()
      modifies this
      ensures Valid() && View() == Q.TakeNext(old(View()), now)
      ensures taken == if old(active).None? then active else None
    {
      DiscardExpired(now);
      if active.Some? || pending == [] {
        return None;
      }
      assert pending[0] in pending;
      taken := Some(pending[0]);
      assert forall x | x in pending[1..] :: x in pending;
      pending := pending[1..];
      active := taken;
    }

    method Release(id: nat)
      requires Valid() && id < |ops|
      modifies this
      ensures Valid() && View() == Q.Release(old(View()), id)
    {
      if active == Some(id) {
        active := None;
      }
      ops := ops[id := ops[id].(quiesced := true)];
    }

    /** fail and complete: only an open operation takes the outcome. */
    method Settle(id: nat, outcome: Q.Outcome)
      requires Valid() && id < |ops|
      modifies this`ops
      ensures Valid() && View() == Q.Settle(old(View()), id, outcome)
    {
      if ops[id].outcome == Q.Open {
        ops := ops[id := ops[id].(outcome := outcome)];
      }
    }

    method PrepareForExecution(id: nat, now: real, satisfied: bool) returns (go: bool)
      requires Valid() && id < |ops|
      modifies this
      ensures Valid() && (View(), go) == Q.PrepareForExecution(old(View()), limits, id, now, satisfied)
    {
      if ops[id].outcome != Q.Open {
        return false;
      }
      if now >= ops[id].deadline {
        Settle(id, Q.DeadlineExceeded);
        return false;
      }
      if !ops[id].force && satisfied {
        Settle(id, Q.Done);
        return false;
      }
      if ops[id].attempts >= limits.sends {
        Settle(id, Q.DeadlineExceeded);
        return false;
      }
      return true;
    }

    method PrepareForSend(id: nat, now: real) returns (go: bool)
      requires Valid() && id < |ops|
      modifies this
      ensures Valid() && (View(), go) == Q.PrepareForSend(old(View()), limits, id, now)
    {
      if ops[id].outcome != Q.Open || ops[id].attempts >= limits.sends {
        return false;
      }
      if now >= ops[id].deadline {
        Settle(id, Q.DeadlineExceeded);
        return false;
      }
      return true;
    }

    method RecordSend(id: nat, generation: int)
      requires Valid() && id < |ops| && Q.Encodable(View(), limits)
      modifies this
      ensures Valid() && View() == Q.RecordSend(old(View()), limits, id, generation)
    {
      var op := ops[id];
      if op.command.SetFanMode? {
        var echo := (generation, Q.RequestFrame(limits, op.command));
        cancelledFanEchoes := Q.Others(cancelledFanEchoes, echo);
        if op.force {
          supersededFanEchoes := Q.Others(supersededFanEchoes, echo);
        }
      }
      ops := ops[id := op.(attempts := op.attempts + 1)];
    }

    method RequeueForReconciliation(id: nat, now: real)
      requires Valid() && id < |ops|
      modifies this
      ensures Valid() && View() == Q.Requeue(old(View()), id, now)
    {
      if ops[id].outcome != Q.Open {
        return;
      }
      if now >= ops[id].deadline {
        Settle(id, Q.DeadlineExceeded);
        return;
      }
      pending := [id] + pending;
    }

    method Cancel(id: nat, generation: Option<int>)
      requires Valid() && id < |ops| && Q.Encodable(View(), limits)
      modifies this
      ensures Valid() && View() == Q.Cancel(old(View()), limits, id, generation)
    {
      var op := ops[id];
      if active == Some(id) && op.command.SetFanMode? && op.attempts > 0 && generation.Some? {
        var stale := (generation.value, Q.RequestFrame(limits, op.command));
        if stale !in cancelledFanEchoes {
          cancelledFanEchoes := Q.Push(cancelledFanEchoes, stale);
        }
      }
      Settle(id, Q.Cancelled);
      var wasPending := id in pending;
      ops := ops[id := ops[id].(cancelRequested := true, quiesced := ops[id].quiesced || wasPending)];
      pending := Q.Without(pending, id);
    }

    method SupersedeActiveFanByPhysical(generation: int) returns (superseded: bool)
      requires Valid() && Q.Encodable(View(), limits)
      modifies this
      ensures Valid() && View() == Q.SupersedeByPhysical(old(View()), limits, generation)
      ensures superseded == (old(Q.SentFan(View())) && old(ops[active.value].outcome == Q.Open))
    {
      if active.None? || !ops[active.value].command.SetFanMode? || ops[active.value].attempts == 0
         || ops[active.value].outcome != Q.Open {
        return false;
      }
      ghost var before := View();
      var id := active.value;
      var mode := ops[id].command.mode;
      ops := ops[id := ops[id].(outcome := Q.Superseded, cancelRequested := true)];
      fanModesRequiringConfirmation := fanModesRequiringConfirmation + {mode};
      MarkPending(mode);
      assert View() == Q.SupersededByPhysical(before);
      var reserved := ReserveActiveFanEchoByPhysical(generation);
      return true;
    }

    /** Pending commands of the mode take over the duty to be confirmed. */
    method MarkPending(mode: FanMode)
      requires Valid()
      modifies this`ops, this`fanModesRequiringConfirmation
      ensures (ops, fanModesRequiringConfirmation)
           == Q.Mark(old(ops), old(fanModesRequiringConfirmation), pending, mode)
    {
      for i := 0 to |pending|
        invariant forall x | x in pending[..i] :: x in pending
        invariant |ops| == |old(ops)|
        invariant (ops, fanModesRequiringConfirmation)
               == Q.Mark(old(ops), old(fanModesRequiringConfirmation), pending[..i], mode)
      {
        var x := pending[i];
        assert x in pending;
        assert pending[..i + 1][..i] == pending[..i];
        if ops[x].command == SetFanMode(mode) {
          ops := ops[x := ops[x].(force := true)];
          fanModesRequiringConfirmation := fanModesRequiringConfirmation - {mode};
        }
      }
      assert pending[..|pending|] == pending;
    }

    method ReserveActiveFanEchoByPhysical(generation: int) returns (reserved: bool)
      requires Valid() && Q.Encodable(View(), limits)
      modifies this`supersededFanEchoes
      ensures Valid() && View() == Q.Reserve(old(View()), limits, generation)
      ensures reserved == old(Q.SentFan(View()))
    {
      if active.None? || !ops[active.value].command.SetFanMode? || ops[active.value].attempts == 0 {
        return false;
      }
      var stale := (generation, Q.RequestFrame(limits, ops[active.value].command));
      if stale !in supersededFanEchoes {
        supersededFanEchoes := Q.Push(supersededFanEchoes, stale);
      }
      return true;
    }

    method DiscardActiveFanEchoReservation(generation: int)
      requires Valid() && Q.Encodable(View(), limits)
      modifies this`supersededFanEchoes
      ensures Valid() && View() == Q.DiscardReservation(old(View()), limits, generation)
    {
      if active.None? || !ops[active.value].command.SetFanMode? {
        return;
      }
      var stale := (generation, Q.RequestFrame(limits, ops[active.value].command));
      supersededFanEchoes := Q.Without(supersededFanEchoes, stale);
    }

    method ConsumeSupersededFanEcho(generation: int, frame: seq<bv8>) returns (consumed: bool)
      requires Valid()
      modifies this`supersededFanEchoes
      ensures Valid() && View() == Q.Consume(old(View()), generation, frame)
      ensures consumed == Q.Swallows(old(View()), generation, frame)
    {
      if !Q.IsFanEcho(frame) {
        return false;
      }
      if (generation, frame) in cancelledFanEchoes {
        return true;
      }
      for i := 0 to |supersededFanEchoes|
        invariant (generation, frame) !in supersededFanEchoes[..i]
        invariant supersededFanEchoes == old(supersededFanEchoes)
      {
        if supersededFanEchoes[i] == (generation, frame) {
          supersededFanEchoes := Q.Without(supersededFanEchoes, (generation, frame));
          return true;
        }
      }
      return false;
    }

    method ClearSupersededFanEchoes()
      requires Valid()
      modifies this
      ensures Valid() && View() == Q.ClearEchoes(old(View()))
    {
      supersededFanEchoes, cancelledFanEchoes := [], [];
    }

    method FailForShutdown(captured: Option<nat>)
      requires Valid() && (captured.Some? ==> captured.value < |ops|)
      modifies this
      ensures Valid() && View() == Q.FailForShutdown(old(View()), captured)
    {
      ClearSupersededFanEchoes();
      var current := if captured.Some? then captured else active;
      if current.Some? {
        Settle(current.value, Q.Stopped);
      }
      DrainPending();
    }

    method DrainPending()
      requires Valid()
      modifies this
      ensures Valid() && View() == Q.Sifted(old(View()), Q.ShutdownFate())
    {
      ghost var fate := Q.ShutdownFate();
      ghost var done := 0;
      while pending != []
        invariant done <= |old(pending)| && pending == old(pending)[done..]
        invariant forall x | x in old(pending)[..done] :: x in old(pending)
        invariant (ops, []) == Q.Sift(old(ops), old(pending)[..done], fate)
        invariant active == old(active) && fanModesRequiringConfirmation == old(fanModesRequiringConfirmation)
        invariant supersededFanEchoes == old(supersededFanEchoes) && cancelledFanEchoes == old(cancelledFanEchoes)
        decreases |pending|
      {
        var x := pending[0];
        assert x in old(pending);
        assert old(pending)[..done + 1][..done] == old(pending)[..done];
        pending := pending[1..];
        done := done + 1;
        ghost var before := ops;
        if ops[x].outcome == Q.Open {
          ops := ops[x := ops[x].(outcome := Q.Stopped)];
        }
        ops := ops[x := ops[x].(quiesced := true)];
        assert ops == before[x := Q.Closed(before[x], Q.Stopped)];
      }
      assert old(pending)[..done] == old(pending);
    }
  }
}
