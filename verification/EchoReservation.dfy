/** A device that takes a fan command over owes one acknowledgement, and exactly one is
  * swallowed for it: when a stale echo is somebody else's, over whole runs. */
module EchoReservation {
  import opened Models
  import opened Frame
  import opened Protocol
  import opened Operations
  import opened CommandLifecycle
  import opened CommandInvariant
  import opened EchoQuarantine
  import opened CommandRuns
  import opened CommandTheorems

  /** The active command is a fan command of this mode. */
  predicate Works(c: Client, mode: FanMode)
    requires Known(c.queue)
  {
    c.queue.active.Some? && c.queue.ops[c.queue.active.value].command == SetFanMode(mode)
  }

  /** A physical frame arrives while a fan command of this mode is on the air. */
  predicate ReservesMode(c: Client, e: Occurrence, mode: FanMode)
    requires Known(c.queue)
  {
    && !c.stopping && Works(c, mode) && c.queue.ops[c.queue.active.value].attempts > 0
    && (e.Reserved? || (e.Physical? && c.queue.ops[c.queue.active.value].outcome == Open))
  }

  /** The frame is the acknowledgement of this mode, and no cancelled command claims it. */
  predicate Acknowledges(c: Client, limits: Limits, e: Occurrence, mode: FanMode) {
    && !c.stopping && e.FrameArrived? && IsFanEcho(e.frame) && Encode(limits.profile, SetFanMode(mode)) == Ok(e.frame)
    && !InQuarantine(c, limits, mode)
  }

  /** The reservation is used up by its acknowledgement, dropped because the frame answered the
    * command after all, or taken over by a forced send of the mode. */
  predicate UsesMode(c: Client, limits: Limits, e: Occurrence, mode: FanMode)
    requires Known(c.queue)
  {
    || Acknowledges(c, limits, e, mode)
    || (e.Correlated? && !c.stopping && Works(c, mode))
    || (SendsMode(c, e, mode) && c.queue.ops[c.queue.active.value].force)
  }

  predicate InReservation(c: Client, limits: Limits, mode: FanMode) {
    Encode(limits.profile, SetFanMode(mode)).Ok?
    && (c.generation, Encode(limits.profile, SetFanMode(mode)).value) in c.queue.superseded
  }

  /** What an event does to the reservation of a mode. */
  predicate ReservationFollows(c: Client, e: Occurrence, limits: Limits, mode: FanMode, r: Client)
    requires Known(c.queue)
  {
    InReservation(r, limits, mode) <==>
      !Forgets(c, e) && (ReservesMode(c, e, mode) || (InReservation(c, limits, mode) && !UsesMode(c, limits, e, mode)))
  }

  // ---- one step ----

  lemma ReserveEffect(q: Queue, limits: Limits, generation: int, echo: Echo)
    requires Known(q) && Encodable(q, limits) && EchoesSound(q, limits, generation)
    ensures echo in Reserve(q, limits, generation).superseded <==>
      echo in q.superseded || (SentFan(q) && echo == ActiveEcho(q, limits, generation))
  {
    if SentFan(q) {
      ActiveEchoIsEcho(q, limits, generation);
      PushKeeps(q.superseded, ActiveEcho(q, limits, generation), limits, generation, q.ops[q.active.value].command.mode);
    }
  }

  /** The active fan command of another mode has another echo. */
  lemma ActiveEchoTells(c: Client, limits: Limits, mode: FanMode)
    requires Inv(c, limits) && Encode(limits.profile, SetFanMode(mode)).Ok?
    requires c.queue.active.Some? && c.queue.ops[c.queue.active.value].command.SetFanMode?
    ensures ActiveEcho(c.queue, limits, c.generation) == (c.generation, Encode(limits.profile, SetFanMode(mode)).value)
      <==> Works(c, mode)
  {
    FramesTellModesApart(limits.profile, mode, c.queue.ops[c.queue.active.value].command.mode);
  }

  lemma ReservedFollows(c: Client, limits: Limits, mode: FanMode)
    requires Inv(c, limits) && Encode(limits.profile, SetFanMode(mode)).Ok? && !c.stopping
    ensures ReservationFollows(c, Reserved, limits, mode, c.(queue := Reserve(c.queue, limits, c.generation)))
  {
    ReserveEffect(c.queue, limits, c.generation, (c.generation, Encode(limits.profile, SetFanMode(mode)).value));
    if SentFan(c.queue) {
      ActiveEchoTells(c, limits, mode);
    }
  }

  lemma TakenOverQueue(q: Queue, limits: Limits)
    requires Known(q) && Encodable(q, limits) && SentFan(q)
    ensures var r := SupersededByPhysical(q);
      && Known(r) && Encodable(r, limits) && r.active == q.active && |r.ops| == |q.ops| && r.superseded == q.superseded
      && r.ops[q.active.value].command == q.ops[q.active.value].command && SentFan(r)
  {
    var id := q.active.value;
    var s := Update(q, id, q.ops[id].(outcome := Superseded, cancelRequested := true));
    var r := SupersededByPhysical(q);
    assert forall x: nat | x < |s.ops| :: r.ops[x] == s.ops[x] || r.ops[x] == s.ops[x].(force := true);
  }

  lemma PhysicalFollows(c: Client, limits: Limits, mode: FanMode)
    requires Inv(c, limits) && Encode(limits.profile, SetFanMode(mode)).Ok? && !c.stopping
    ensures ReservationFollows(c, Physical, limits, mode, c.(queue := SupersedeByPhysical(c.queue, limits, c.generation)))
  {
    if SentFan(c.queue) && c.queue.ops[c.queue.active.value].outcome == Open {
      var r := SupersededByPhysical(c.queue);
      TakenOverQueue(c.queue, limits);
      assert EchoesSound(r, limits, c.generation);
      ReserveEffect(r, limits, c.generation, (c.generation, Encode(limits.profile, SetFanMode(mode)).value));
      ActiveEchoTells(c, limits, mode);
      assert ActiveEcho(r, limits, c.generation) == ActiveEcho(c.queue, limits, c.generation);
    }
  }

  lemma CorrelatedFollows(c: Client, limits: Limits, mode: FanMode)
    requires Inv(c, limits) && Encode(limits.profile, SetFanMode(mode)).Ok? && !c.stopping
    ensures ReservationFollows(c, Correlated, limits, mode, c.(queue := DiscardReservation(c.queue, limits, c.generation)))
  {
    if c.queue.active.Some? && c.queue.ops[c.queue.active.value].command.SetFanMode? {
      ActiveEchoTells(c, limits, mode);
      WithoutKeeps(c.queue.superseded, ActiveEcho(c.queue, limits, c.generation), limits, c.generation);
    }
  }

  lemma ArrivalFollows(c: Client, limits: Limits, frame: seq<byte>, mode: FanMode)
    requires Inv(c, limits) && Encode(limits.profile, SetFanMode(mode)).Ok? && !c.stopping
    ensures ReservationFollows(c, FrameArrived(frame), limits, mode, c.(queue := Consume(c.queue, c.generation, frame)))
  {
    WithoutKeeps(c.queue.superseded, (c.generation, frame), limits, c.generation);
  }

  lemma FrameFollows(c: Client, limits: Limits, e: Occurrence, mode: FanMode)
    requires Inv(c, limits) && Encode(limits.profile, SetFanMode(mode)).Ok? && IsFrameEvent(e)
    ensures ReservationFollows(c, e, limits, mode, Step(c, limits, e))
  {
    if !c.stopping {
      match e
      case Physical => PhysicalFollows(c, limits, mode);
      case Reserved => ReservedFollows(c, limits, mode);
      case Correlated => CorrelatedFollows(c, limits, mode);
      case FrameArrived(frame) => ArrivalFollows(c, limits, frame, mode);
      case _ =>
    }
  }

  lemma SendFollows(c: Client, limits: Limits, mode: FanMode)
    requires Inv(c, limits) && Encode(limits.profile, SetFanMode(mode)).Ok? && c.phase == Awaiting(false)
    ensures ReservationFollows(c, Sent, limits, mode,
      c.(queue := RecordSend(c.queue, limits, c.queue.active.value, c.generation), phase := Awaiting(true)))
  {
    if c.queue.ops[c.queue.active.value].command.SetFanMode? {
      ActiveEchoTells(c, limits, mode);
    }
  }

  /** Preparation and replies leave the reservations alone. */
  lemma WorkKeepsReservations(c: Client, limits: Limits, e: Occurrence)
    requires Inv(c, limits) && c.queue.active.Some? && !e.Sent?
    ensures OnWork(c, limits, e).queue.superseded == c.queue.superseded
    ensures OnWork(c, limits, e).generation == c.generation
  {
  }

  lemma SentFollows(c: Client, limits: Limits, mode: FanMode)
    requires Inv(c, limits) && Encode(limits.profile, SetFanMode(mode)).Ok?
    ensures ReservationFollows(c, Sent, limits, mode, Step(c, limits, Sent))
  {
    if c.phase == Awaiting(false) {
      SendFollows(c, limits, mode);
    }
  }

  lemma OtherWorkFollows(c: Client, limits: Limits, e: Occurrence, mode: FanMode, r: Client)
    requires Inv(c, limits) && IsWork(e) && !e.Sent?
    requires r.queue.superseded == c.queue.superseded && r.generation == c.generation
    ensures ReservationFollows(c, e, limits, mode, r)
  {
  }

  lemma WorkFollows(c: Client, limits: Limits, e: Occurrence, mode: FanMode)
    requires Inv(c, limits) && Encode(limits.profile, SetFanMode(mode)).Ok? && IsWork(e)
    ensures ReservationFollows(c, e, limits, mode, Step(c, limits, e))
  {
    if e.Sent? {
      SentFollows(c, limits, mode);
    } else {
      if c.queue.active.Some? {
        WorkKeepsReservations(c, limits, e);
      }
      OtherWorkFollows(c, limits, e, mode, Step(c, limits, e));
    }
  }

  lemma CallersKeepReservations(c: Client, limits: Limits, e: Occurrence)
    requires Inv(c, limits) && (e.Enqueued? || e.Taken? || e.Abandoned?)
    ensures Step(c, limits, e).queue.superseded == c.queue.superseded
    ensures Step(c, limits, e).generation == c.generation
  {
  }

  lemma LifecycleReservations(c: Client, limits: Limits, e: Occurrence)
    requires Inv(c, limits) && (e.Connecting? || e.Disconnected? || e.Interrupted? || e.Finished?)
    ensures Step(c, limits, e).queue.superseded == if Forgets(c, e) then [] else c.queue.superseded
    ensures !Forgets(c, e) ==> Step(c, limits, e).generation == c.generation
  {
  }

  /** Exactly these change whether the echo of a mode is reserved: a physical frame beside a
    * sent command of the mode reserves it; its acknowledgement, a correlation, a forced send
    * of the mode or a forgotten connection uses it up. */
  lemma ReservationStep(c: Client, limits: Limits, e: Occurrence, mode: FanMode)
    requires Inv(c, limits) && Encode(limits.profile, SetFanMode(mode)).Ok?
    ensures ReservationFollows(c, e, limits, mode, Step(c, limits, e))
  {
    if IsWork(e) {
      WorkFollows(c, limits, e, mode);
    } else if IsFrameEvent(e) {
      FrameFollows(c, limits, e, mode);
    } else if e.Enqueued? || e.Taken? || e.Abandoned? {
      CallersKeepReservations(c, limits, e);
    } else {
      LifecycleReservations(c, limits, e);
    }
  }

  // ---- whole runs ----

  /** Whether each event of a run reserves, and whether it uses up, the echo of a mode. */
  ghost function Reservations(c: Client, limits: Limits, events: seq<Occurrence>, mode: FanMode): seq<(bool, bool)>
    requires Inv(c, limits)
  {
    if events == [] then []
    else
      var n := |events| - 1;
      var d := Run(c, limits, events[..n]);
      Reservations(c, limits, events[..n], mode)
      + [(ReservesMode(d, events[n], mode), Forgets(d, events[n]) || UsesMode(d, limits, events[n], mode))]
  }

  lemma ReservationOneMore(d: Client, limits: Limits, e: Occurrence, mode: FanMode, before: seq<(bool, bool)>)
    requires Inv(d, limits) && Encode(limits.profile, SetFanMode(mode)).Ok?
    requires InReservation(d, limits, mode) <==> Stands(before)
    ensures InReservation(Step(d, limits, e), limits, mode) <==>
      Stands(before + [(ReservesMode(d, e, mode), Forgets(d, e) || UsesMode(d, limits, e, mode))])
  {
    ReservationStep(d, limits, e, mode);
    StandingNext(before, (ReservesMode(d, e, mode), Forgets(d, e) || UsesMode(d, limits, e, mode)));
  }

  /** In every run an echo is reserved exactly while a reservation of its mode stands: each
    * swallows one acknowledgement, and the bounded deque never drops one early. */
  lemma {:induction false} ReservationIsStanding(c: Client, limits: Limits, events: seq<Occurrence>, mode: FanMode)
    requires Inv(c, limits) && c.queue.superseded == [] && Encode(limits.profile, SetFanMode(mode)).Ok?
    ensures InReservation(Run(c, limits, events), limits, mode) <==> Stands(Reservations(c, limits, events, mode))
  {
    if events != [] {
      var n := |events| - 1;
      ReservationIsStanding(c, limits, events[..n], mode);
      ReservationOneMore(Run(c, limits, events[..n]), limits, events[n], mode, Reservations(c, limits, events[..n], mode));
    }
  }

  lemma EchoIsSwallowed(r: Client, limits: Limits, mode: FanMode)
    requires limits.profile.fan == Fan3a && Encode(limits.profile, SetFanMode(mode)).Ok?
    ensures Swallows(r.queue, r.generation, Encode(limits.profile, SetFanMode(mode)).value) <==>
      InQuarantine(r, limits, mode) || InReservation(r, limits, mode)
  {
    FanFramesAreEchoes(limits.profile, mode);
  }

  /** In every run the acknowledgement of a mode is swallowed exactly if a cancellation or a
    * reservation of that mode stands. */
  lemma EchoesAreSwallowedExactly(limits: Limits, events: seq<Occurrence>, mode: FanMode, r: Client)
    requires limits.profile.fan == Fan3a && Encode(limits.profile, SetFanMode(mode)).Ok? && r == Reached(limits, events)
    ensures Swallows(r.queue, r.generation, Encode(limits.profile, SetFanMode(mode)).value) <==>
      Stands(Marks(IDLE_CLIENT, limits, events, mode)) || Stands(Reservations(IDLE_CLIENT, limits, events, mode))
  {
    IdleClientSatisfiesInv(limits);
    QuarantineIsStanding(IDLE_CLIENT, limits, events, mode);
    ReservationIsStanding(IDLE_CLIENT, limits, events, mode);
    EchoIsSwallowed(r, limits, mode);
  }
}
