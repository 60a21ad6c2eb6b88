/** The life of user commands across reconnects: the client drives the queue one
  * operation at a time, callers enqueue and abandon at any moment. */
module CommandLifecycle {
  import opened Models
  import opened Frame
  import opened Protocol
  import opened Operations

  /** Where the client stands in executing the active operation. */
  datatype Phase = Idle | Preparing | Looping | Awaiting(sent: bool)

  datatype Client = Client(queue: Queue, phase: Phase, generation: int, stopping: bool, captured: Option<nat>)

  datatype Occurrence =
    | Enqueued(command: Command, now: real)
    | Taken(now: real)
    | Executed(now: real, satisfied: bool)
    | Attempted(now: real)
    | Sent
    | Silent(now: real, later: real)
    | Broken(now: real)
    | Expired
    | Answered
    | Noticed
    | Abandoned(id: nat)
    | Physical
    | Reserved
    | Correlated
    | FrameArrived(frame: seq<byte>)
    | Connecting
    | Disconnected
    | Interrupted
    | Finished

  // ---- what every step keeps ----

  predicate InLine(q: Queue, x: nat) {
    q.active == Some(x) || x in q.pending
  }

  predicate Ascending(s: seq<nat>) {
    forall i, j | 0 <= i < j < |s| :: s[i] < s[j]
  }

  /** Pending operations are in order of issue, the active one before all of them. */
  predicate Ordered(q: Queue) {
    && Known(q) && Ascending(q.pending)
    && (q.active.Some? ==> forall x | x in q.pending :: q.active.value < x)
  }

  /** What waits is unsettled, and what is unsettled waits, is active, or was taken from
    * the client by shutdown. */
  ghost predicate Housed(q: Queue, captured: Option<nat>)
    requires Known(q)
  {
    && (forall x | x in q.pending :: q.ops[x].outcome == Open)
    && (forall x: nat | x < |q.ops| && q.ops[x].outcome == Open :: InLine(q, x) || captured == Some(x))
    && (captured.Some? ==> captured.value < |q.ops| && !InLine(q, captured.value) && q.active.None?)
  }

  /** Behind the first operation in line no command type occurs twice. */
  ghost predicate Paired(q: Queue)
    requires Known(q)
  {
    forall x: nat, y: nat, z: nat | InLine(q, x) && InLine(q, y) && InLine(q, z) && x < y < z ::
      CommandKind(q.ops[y].command) != CommandKind(q.ops[z].command)
  }

  /** Sends stay within the budget, a cancelled operation is a settled one, and one that
    * must be confirmed by the device is not done before it has been sent. */
  predicate Accountable(op: Operation, limits: Limits) {
    && op.attempts <= limits.sends
    && (op.cancelRequested ==> op.outcome != Open)
    && (op.outcome == Done && op.force ==> op.attempts > 0)
  }

  predicate Budgeted(q: Queue, limits: Limits) {
    forall x | 0 <= x < |q.ops| :: Accountable(q.ops[x], limits)
  }

  predicate IsEchoOf(e: Echo, limits: Limits, generation: int, mode: FanMode) {
    Encode(limits.profile, SetFanMode(mode)).Ok? && e == (generation, Encode(limits.profile, SetFanMode(mode)).value)
  }

  /** Stale echoes are frames of fan modes, of one generation, each listed once. */
  ghost predicate Echoes(echoes: seq<Echo>, limits: Limits, generation: int) {
    && (forall i, j | 0 <= i < j < |echoes| :: echoes[i] != echoes[j])
    && (forall e | e in echoes :: exists mode :: IsEchoOf(e, limits, generation, mode))
  }

  ghost predicate EchoesSound(q: Queue, limits: Limits, generation: int) {
    Echoes(q.cancelled, limits, generation) && Echoes(q.superseded, limits, generation)
  }

  ghost predicate QueueInv(q: Queue, limits: Limits, generation: int, captured: Option<nat>) {
    Ordered(q) && Housed(q, captured) && Paired(q) && Budgeted(q, limits) && Encodable(q, limits)
    && EchoesSound(q, limits, generation)
  }

  ghost predicate Inv(c: Client, limits: Limits) {
    && QueueInv(c.queue, limits, c.generation, c.captured)
    && (c.phase.Idle? <==> c.queue.active.None?)
    && (c.phase.Looping? || c.phase == Awaiting(false) ==>
          c.queue.ops[c.queue.active.value].attempts < limits.sends)
    && (c.phase == Awaiting(true) ==> c.queue.ops[c.queue.active.value].attempts > 0)
    && (c.captured.Some? ==> c.stopping)
    && (c.stopping ==> c.phase.Idle?)
  }

  // ---- the client's steps ----

  function Finish(c: Client, q: Queue): Client
    requires q.active.Some? && q.active.value < |q.ops|
  {
    c.(queue := Release(q, q.active.value), phase := Idle)
  }

  function OnWork(c: Client, limits: Limits, e: Occurrence): Client
    requires Known(c.queue) && Encodable(c.queue, limits) && c.queue.active.Some?
  {
    var q, id := c.queue, c.queue.active.value;
    match e
    case Executed(now, satisfied) =>
      if !c.phase.Preparing? then c
      else
        var (r, go) := PrepareForExecution(q, limits, id, now, satisfied);
        if go then c.(phase := Looping) else Finish(c, r)
    case Attempted(now) =>
      if !c.phase.Looping? then c
      else
        var (r, go) := PrepareForSend(q, limits, id, now);
        if go then c.(phase := Awaiting(false)) else Finish(c, r)
    case Sent =>
      if c.phase != Awaiting(false) then c
      else c.(queue := RecordSend(q, limits, id, c.generation), phase := Awaiting(true))
    case _ => if c.phase.Awaiting? then OnReply(c, limits, e) else c
  }

  /** Silence and an answer follow the send; an error, the deadline or a cancellation can
    * come before it. */
  function OnReply(c: Client, limits: Limits, e: Occurrence): Client
    requires Known(c.queue) && c.queue.active.Some?
  {
    var q, id := c.queue, c.queue.active.value;
    match e
    case Silent(now, later) =>
      if c.phase != Awaiting(true) then c
      else if ShouldRetry(q, limits, id, now) then c.(phase := Looping)
      else Finish(c, Requeue(q, id, later))
    case Broken(now) => Finish(c, Requeue(q, id, now))
    case Expired => Finish(c, Settle(q, id, DeadlineExceeded))
    case Answered => if c.phase == Awaiting(true) then Finish(c, Settle(q, id, Done)) else c
    case Noticed => if q.ops[id].cancelRequested then Finish(c, q) else c
    case _ => c
  }

  function OnFrame(c: Client, limits: Limits, e: Occurrence): Client
    requires Known(c.queue) && Encodable(c.queue, limits)
  {
    match e
    case Physical => c.(queue := SupersedeByPhysical(c.queue, limits, c.generation))
    case Reserved => c.(queue := Reserve(c.queue, limits, c.generation))
    case Correlated => c.(queue := DiscardReservation(c.queue, limits, c.generation))
    case FrameArrived(frame) => c.(queue := Consume(c.queue, c.generation, frame))
    case _ => c
  }

  function Interrupt(c: Client): Client
    requires Known(c.queue)
  {
    var q := ClearEchoes(c.queue);
    Client(if q.active.Some? then Release(q, q.active.value) else q, Idle, c.generation, true, q.active)
  }

  /** Work and reply events concern the active operation; without one they do not occur. */
  predicate IsWork(e: Occurrence) {
    e.Executed? || e.Attempted? || e.Sent? || e.Silent? || e.Broken? || e.Expired? || e.Answered? || e.Noticed?
  }

  predicate IsFrameEvent(e: Occurrence) {
    e.Physical? || e.Reserved? || e.Correlated? || e.FrameArrived?
  }

  /** One step. An event that cannot occur in the current state changes nothing. */
  function Step(c: Client, limits: Limits, e: Occurrence): Client
    requires Known(c.queue) && Encodable(c.queue, limits) && (c.captured.Some? ==> c.captured.value < |c.queue.ops|)
  {
    if IsWork(e) then if c.queue.active.Some? then OnWork(c, limits, e) else c
    else if IsFrameEvent(e) then if c.stopping then c else OnFrame(c, limits, e)
    else
      match e
      case Enqueued(command, now) =>
        if c.stopping || Encode(limits.profile, command).Err? then c
        else c.(queue := Enqueue(c.queue, limits, command, now))
      case Taken(now) =>
        if c.stopping || !c.phase.Idle? then c
        else
          var q := TakeNext(c.queue, now);
          c.(queue := q, phase := if q.active.Some? then Preparing else Idle)
      case Abandoned(id) =>
        if id < |c.queue.ops| then c.(queue := Cancel(c.queue, limits, id, Some(c.generation))) else c
      case Connecting =>
        if c.phase.Idle? then c.(generation := c.generation + 1, queue := ClearEchoes(c.queue)) else c
      case Disconnected => c.(queue := ClearEchoes(c.queue))
      case Interrupted => if c.stopping then c else Interrupt(c)
      case Finished =>
        if c.stopping then c.(queue := FailForShutdown(c.queue, c.captured), captured := None) else c
      case _ => c
  }
}
