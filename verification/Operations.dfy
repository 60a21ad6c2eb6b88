/** The queue of user commands: superseding, budget, settlement, stale-echo ownership.
  * Operations are records in a table; an operation is named by its place there. */
module Operations {
  import opened Models
  import opened Frame
  import opened Protocol

  /** How an operation's future stands. */
  datatype Outcome = Open | Done | Superseded | DeadlineExceeded | Stopped | Cancelled

  datatype Operation = Operation(
    command: Command,
    deadline: real,
    attempts: nat,
    force: bool,
    cancelRequested: bool,
    quiesced: bool,
    outcome: Outcome)

  /** A fan acknowledgement of a connection generation that belongs to nobody. */
  type Echo = (int, seq<byte>)

  const ECHO_SLOTS := 8

  datatype Limits = Limits(profile: Profile, window: real, sends: nat)

  datatype Queue = Queue(
    ops: seq<Operation>,
    pending: seq<nat>,
    active: Option<nat>,
    confirm: set<FanMode>,
    superseded: seq<Echo>,
    cancelled: seq<Echo>)

  const EMPTY_QUEUE := Queue([], [], None, {}, [], [])

  predicate Known(q: Queue) {
    && (q.active.Some? ==> q.active.value < |q.ops|)
    && forall x | x in q.pending :: x < |q.ops|
  }

  function CommandKind(command: Command): nat {
    match command
    case SetPower(_) => 0
    case SetFanMode(_) => 1
    case SetLightPower(_) => 2
    case SetLightBrightness(_) => 3
    case SetLightColor(_, _, _) => 4
  }

  // ---- bounded deques ----

  function Push(echoes: seq<Echo>, e: Echo): seq<Echo> {
    (if |echoes| < ECHO_SLOTS then echoes else echoes[1..]) + [e]
  }

  function PushNew(echoes: seq<Echo>, e: Echo): seq<Echo> {
    if e in echoes then echoes else Push(echoes, e)
  }

  /** The deque without every copy of e. */
  function Others(echoes: seq<Echo>, e: Echo): (r: seq<Echo>)
    ensures forall x :: x in r <==> x in echoes && x != e
    ensures |r| <= |echoes|
  {
    if echoes == [] then []
    else
      var rest := Others(echoes[..|echoes| - 1], e);
      var last := echoes[|echoes| - 1];
      assert echoes == echoes[..|echoes| - 1] + [last];
      if last == e then rest else rest + [last]
  }

  /** The list without the first copy of x. */
  function Without<T(==)>(s: seq<T>, x: T): (r: seq<T>)
    ensures x !in s ==> r == s
    ensures forall y | y in r :: y in s
    ensures forall y | y in s && y != x :: y in r
  {
    if s == [] then []
    else if s[0] == x then s[1..]
    else
      assert forall y | y in s :: y == s[0] || y in s[1..];
      [s[0]] + Without(s[1..], x)
  }

  // ---- going through the pending operations ----

  datatype Fate = Keep | Drop | Close(outcome: Outcome)

  function Closed(op: Operation, outcome: Outcome): Operation {
    op.(outcome := if op.outcome == Open then outcome else op.outcome, quiesced := true)
  }

  /** Deals with the pending operations in order, each by its fate. */
  function Sift(ops: seq<Operation>, pending: seq<nat>, fate: Operation -> Fate): (r: (seq<Operation>, seq<nat>))
    requires forall x | x in pending :: x < |ops|
    ensures |r.0| == |ops|
    ensures forall x | x in r.1 :: x in pending
  {
    if pending == [] then (ops, [])
    else
      var n := |pending| - 1;
      assert pending[n] in pending && forall y | y in pending[..n] :: y in pending;
      var (o, p) := Sift(ops, pending[..n], fate);
      var x := pending[n];
      match fate(o[x])
      case Keep => (o, p + [x])
      case Drop => (o, p)
      case Close(outcome) => (o[x := Closed(o[x], outcome)], p)
  }

  function CoalesceFate(command: Command): Operation -> Fate {
    (op: Operation) => if CommandKind(op.command) == CommandKind(command) && op.outcome == Open then Close(Superseded) else Keep
  }

  function ExpiryFate(now: real): Operation -> Fate {
    (op: Operation) => if op.outcome != Open then Drop
                          else if now >= op.deadline then Close(DeadlineExceeded)
                          else Keep
  }

  function ShutdownFate(): Operation -> Fate {
    (op: Operation) => Close(Stopped)
  }

  function Sifted(q: Queue, fate: Operation -> Fate): (r: Queue)
    requires Known(q)
    ensures Known(r)
  {
    var s := Sift(q.ops, q.pending, fate);
    q.(ops := s.0, pending := s.1)
  }

  // ---- queue operations ----

  function Update(q: Queue, id: nat, op: Operation): Queue
    requires id < |q.ops|
  {
    q.(ops := q.ops[id := op])
  }

  function Settle(q: Queue, id: nat, outcome: Outcome): Queue
    requires id < |q.ops|
  {
    if q.ops[id].outcome == Open then Update(q, id, q.ops[id].(outcome := outcome)) else q
  }

  predicate NeedsConfirmation(q: Queue, command: Command) {
    command.SetFanMode? && command.mode in q.confirm
  }

  function Enqueue(q: Queue, limits: Limits, command: Command, now: real): Queue
    requires Known(q)
  {
    var forced := NeedsConfirmation(q, command);
    var op := Operation(command, now + limits.window, 0, forced, false, false, Open);
    var s := Sifted(q, CoalesceFate(command));
    s.(ops := s.ops + [op], pending := s.pending + [|q.ops|],
       confirm := if forced then q.confirm - {command.mode} else q.confirm)
  }

  function TakeNext(q: Queue, now: real): Queue
    requires Known(q)
  {
    var d := Sifted(q, ExpiryFate(now));
    if d.active.Some? || d.pending == [] then d
    else d.(pending := d.pending[1..], active := Some(d.pending[0]))
  }

  function Release(q: Queue, id: nat): Queue
    requires id < |q.ops|
  {
    var r := Update(q, id, q.ops[id].(quiesced := true));
    if q.active == Some(id) then r.(active := None) else r
  }

  /** Completion, expiry and budget before execution; whether to go on. */
  function PrepareForExecution(q: Queue, limits: Limits, id: nat, now: real, satisfied: bool): (Queue, bool)
    requires id < |q.ops|
  {
    var op := q.ops[id];
    if op.outcome != Open then (q, false)
    else if now >= op.deadline then (Settle(q, id, DeadlineExceeded), false)
    else if !op.force && satisfied then (Settle(q, id, Done), false)
    else if op.attempts >= limits.sends then (Settle(q, id, DeadlineExceeded), false)
    else (q, true)
  }

  function PrepareForSend(q: Queue, limits: Limits, id: nat, now: real): (Queue, bool)
    requires id < |q.ops|
  {
    var op := q.ops[id];
    if op.outcome != Open || op.attempts >= limits.sends then (q, false)
    else if now >= op.deadline then (Settle(q, id, DeadlineExceeded), false)
    else (q, true)
  }

  predicate ShouldRetry(q: Queue, limits: Limits, id: nat, now: real)
    requires id < |q.ops|
  {
    q.ops[id].attempts < limits.sends && q.ops[id].outcome == Open && now < q.ops[id].deadline
  }

  function RequestFrame(limits: Limits, command: Command): seq<byte>
    requires Encode(limits.profile, command).Ok?
  {
    Encode(limits.profile, command).value
  }

  predicate Encodable(q: Queue, limits: Limits) {
    forall x | 0 <= x < |q.ops| :: Encode(limits.profile, q.ops[x].command).Ok?
  }

  /** Sending takes over the echoes of the same frame. */
  function Retire(q: Queue, limits: Limits, id: nat, generation: int): Queue
    requires id < |q.ops| && Encodable(q, limits)
  {
    var op := q.ops[id];
    if !op.command.SetFanMode? then q
    else
      var echo := (generation, RequestFrame(limits, op.command));
      var r := q.(cancelled := Others(q.cancelled, echo));
      if op.force then r.(superseded := Others(q.superseded, echo)) else r
  }

  function RecordSend(q: Queue, limits: Limits, id: nat, generation: int): Queue
    requires id < |q.ops| && Encodable(q, limits)
  {
    var r := Retire(q, limits, id, generation);
    Update(r, id, r.ops[id].(attempts := r.ops[id].attempts + 1))
  }

  function Requeue(q: Queue, id: nat, now: real): Queue
    requires id < |q.ops|
  {
    if q.ops[id].outcome != Open then q
    else if now >= q.ops[id].deadline then Settle(q, id, DeadlineExceeded)
    else q.(pending := [id] + q.pending)
  }

  /** The active operation is a fan command that has been sent at least once. */
  predicate SentFan(q: Queue)
    requires Known(q)
  {
    q.active.Some? && q.ops[q.active.value].command.SetFanMode? && q.ops[q.active.value].attempts > 0
  }

  function ActiveEcho(q: Queue, limits: Limits, generation: int): Echo
    requires Known(q) && q.active.Some? && Encodable(q, limits)
  {
    (generation, RequestFrame(limits, q.ops[q.active.value].command))
  }

  function Quarantined(q: Queue, limits: Limits, id: nat, generation: Option<int>): Queue
    requires Known(q) && Encodable(q, limits)
  {
    if q.active == Some(id) && SentFan(q) && generation.Some?
    then q.(cancelled := PushNew(q.cancelled, ActiveEcho(q, limits, generation.value)))
    else q
  }

  function Cancel(q: Queue, limits: Limits, id: nat, generation: Option<int>): Queue
    requires Known(q) && Encodable(q, limits) && id < |q.ops|
  {
    var s := Settle(Quarantined(q, limits, id, generation), id, Cancelled);
    var op := s.ops[id].(cancelRequested := true, quiesced := s.ops[id].quiesced || id in q.pending);
    Update(s, id, op).(pending := Without(q.pending, id))
  }

  /** Marks pending commands of the mode; they then carry the confirmation duty. */
  function Mark(ops: seq<Operation>, confirm: set<FanMode>, pending: seq<nat>, mode: FanMode):
      (r: (seq<Operation>, set<FanMode>))
    requires forall x | x in pending :: x < |ops|
    ensures |r.0| == |ops|
    ensures forall x | 0 <= x < |ops| ::
      r.0[x] == ops[x] || (x in pending && r.0[x] == ops[x].(force := true) && ops[x].command == SetFanMode(mode))
  {
    if pending == [] then (ops, confirm)
    else
      var n := |pending| - 1;
      assert pending[n] in pending && forall y | y in pending[..n] :: y in pending;
      var (o, c) := Mark(ops, confirm, pending[..n], mode);
      var x := pending[n];
      if o[x].command == SetFanMode(mode) then (o[x := o[x].(force := true)], c - {mode}) else (o, c)
  }

  function Reserve(q: Queue, limits: Limits, generation: int): Queue
    requires Known(q) && Encodable(q, limits)
  {
    if SentFan(q) then q.(superseded := PushNew(q.superseded, ActiveEcho(q, limits, generation))) else q
  }

  function SupersededByPhysical(q: Queue): Queue
    requires Known(q) && SentFan(q)
  {
    var id := q.active.value;
    var mode := q.ops[id].command.mode;
    var s := Update(q, id, q.ops[id].(outcome := Superseded, cancelRequested := true));
    var (o, c) := Mark(s.ops, q.confirm + {mode}, q.pending, mode);
    s.(ops := o, confirm := c)
  }

  /** A physical update takes over from a fan command that has been sent. */
  function SupersedeByPhysical(q: Queue, limits: Limits, generation: int): Queue
    requires Known(q) && Encodable(q, limits)
  {
    if SentFan(q) && q.ops[q.active.value].outcome == Open
    then Reserve(SupersededByPhysical(q), limits, generation)
    else q
  }

  function DiscardReservation(q: Queue, limits: Limits, generation: int): Queue
    requires Known(q) && Encodable(q, limits)
  {
    if q.active.Some? && q.ops[q.active.value].command.SetFanMode?
    then q.(superseded := Without(q.superseded, ActiveEcho(q, limits, generation)))
    else q
  }

  predicate IsFanEcho(frame: seq<byte>) {
    |frame| >= 2 && frame[0] == 0x3a && frame[1] == 0x05
  }

  /** Whether an incoming frame is swallowed as somebody else's acknowledgement. */
  predicate Swallows(q: Queue, generation: int, frame: seq<byte>) {
    IsFanEcho(frame) && ((generation, frame) in q.cancelled || (generation, frame) in q.superseded)
  }

  function Consume(q: Queue, generation: int, frame: seq<byte>): Queue {
    if Swallows(q, generation, frame) && (generation, frame) !in q.cancelled
    then q.(superseded := Without(q.superseded, (generation, frame)))
    else q
  }

  function ClearEchoes(q: Queue): Queue {
    q.(superseded := [], cancelled := [])
  }

  function FailForShutdown(q: Queue, captured: Option<nat>): Queue
    requires Known(q) && (captured.Some? ==> captured.value < |q.ops|)
  {
    var c := ClearEchoes(q);
    var current := if captured.Some? then captured else q.active;
    Sifted(if current.Some? then Settle(c, current.value, Stopped) else c, ShutdownFate())
  }
}
