/** Stale fan acknowledgements: who owns an echo, and why the bounded deques never lose
  * a live entry. */
module EchoQuarantine {
  import opened Models
  import opened Frame
  import opened Protocol
  import opened Operations
  import opened CommandLifecycle

  // ---- at most six entries ----

  const ALL_MODES := {Low, Medium, High, Sleep, Auto, Turbo}

  predicate Distinct<T(==)>(s: seq<T>) {
    forall i, j | 0 <= i < j < |s| :: s[i] != s[j]
  }

  lemma {:induction false} SubsetIsSmaller(a: set<FanMode>, b: set<FanMode>)
    requires a <= b
    ensures |a| <= |b|
    decreases a
  {
    if a != {} {
      var x :| x in a;
      SubsetIsSmaller(a - {x}, b - {x});
    }
  }

  lemma {:induction false} DistinctModes(s: seq<FanMode>)
    requires Distinct(s)
    ensures |(set m | m in s)| == |s|
  {
    if s != [] {
      var n := |s| - 1;
      DistinctModes(s[..n]);
      assert (set m | m in s) == (set m | m in s[..n]) + {s[n]};
    }
  }

  ghost predicate Named(e: Echo, echoOf: FanMode -> Echo) {
    exists mode :: e == echoOf(mode)
  }

  lemma {:induction false} ModesOf(echoes: seq<Echo>, echoOf: FanMode -> Echo) returns (modes: seq<FanMode>)
    requires forall e | e in echoes :: Named(e, echoOf)
    ensures |modes| == |echoes| && forall i | 0 <= i < |modes| :: echoes[i] == echoOf(modes[i])
  {
    if echoes == [] {
      modes := [];
    } else {
      var n := |echoes| - 1;
      assert forall e | e in echoes[..n] :: e in echoes;
      var before := ModesOf(echoes[..n], echoOf);
      assert Named(echoes[n], echoOf);
      var mode :| echoes[n] == echoOf(mode);
      modes := before + [mode];
    }
  }

  lemma DistinctEchoes(echoes: seq<Echo>, echoOf: FanMode -> Echo)
    requires Distinct(echoes) && forall e | e in echoes :: Named(e, echoOf)
    ensures |echoes| <= 6
  {
    var modes := ModesOf(echoes, echoOf);
    forall i, j | 0 <= i < j < |modes|
      ensures modes[i] != modes[j]
    {
      assert echoes[i] != echoes[j];
    }
    DistinctModes(modes);
    SubsetIsSmaller((set m | m in modes), ALL_MODES);
  }

  /** Six fan modes and one generation leave room in eight slots. */
  lemma AtMostSix(echoes: seq<Echo>, limits: Limits, generation: int)
    requires Echoes(echoes, limits, generation)
    ensures |echoes| <= 6
  {
    var echoOf := (m: FanMode) => (generation, Encode(limits.profile, SetFanMode(m)).GetOr([]));
    forall e | e in echoes
      ensures Named(e, echoOf)
    {
      var mode :| IsEchoOf(e, limits, generation, mode);
      assert e == echoOf(mode);
    }
    DistinctEchoes(echoes, echoOf);
  }

  // ---- the deque operations ----

  lemma PushKeeps(echoes: seq<Echo>, e: Echo, limits: Limits, generation: int, mode: FanMode)
    requires Echoes(echoes, limits, generation) && IsEchoOf(e, limits, generation, mode)
    ensures Echoes(PushNew(echoes, e), limits, generation)
    ensures forall x :: x in PushNew(echoes, e) <==> x in echoes || x == e
  {
    AtMostSix(echoes, limits, generation);
    if e !in echoes {
      assert PushNew(echoes, e) == echoes + [e];
      assert forall x :: x in echoes + [e] <==> x in echoes || x == e;
    }
  }

  lemma {:induction false} OthersDistinct(echoes: seq<Echo>, e: Echo)
    requires Distinct(echoes)
    ensures Distinct(Others(echoes, e))
  {
    if echoes != [] {
      var n := |echoes| - 1;
      OthersDistinct(echoes[..n], e);
      assert forall i | 0 <= i < n :: echoes[i] != echoes[n];
      assert echoes[n] !in echoes[..n];
    }
  }

  lemma {:induction false} WithoutDistinct(echoes: seq<Echo>, e: Echo)
    requires Distinct(echoes)
    ensures Distinct(Without(echoes, e)) && e !in Without(echoes, e)
  {
    if echoes != [] {
      assert forall y | y in echoes[1..] :: y != echoes[0];
      if echoes[0] != e {
        WithoutDistinct(echoes[1..], e);
        assert echoes[0] !in Without(echoes[1..], e);
      }
    }
  }

  lemma SublistKeeps(echoes: seq<Echo>, r: seq<Echo>, limits: Limits, generation: int)
    requires Echoes(echoes, limits, generation) && Distinct(r) && forall x | x in r :: x in echoes
    ensures Echoes(r, limits, generation)
  {
  }

  lemma OthersKeeps(echoes: seq<Echo>, e: Echo, limits: Limits, generation: int)
    requires Echoes(echoes, limits, generation)
    ensures Echoes(Others(echoes, e), limits, generation)
  {
    OthersDistinct(echoes, e);
    SublistKeeps(echoes, Others(echoes, e), limits, generation);
  }

  lemma WithoutKeeps(echoes: seq<Echo>, e: Echo, limits: Limits, generation: int)
    requires Echoes(echoes, limits, generation)
    ensures Echoes(Without(echoes, e), limits, generation) && e !in Without(echoes, e)
  {
    WithoutDistinct(echoes, e);
    SublistKeeps(echoes, Without(echoes, e), limits, generation);
  }

  // ---- the queue operations on echoes ----

  lemma ActiveEchoIsEcho(q: Queue, limits: Limits, generation: int)
    requires Known(q) && Encodable(q, limits) && SentFan(q)
    ensures IsEchoOf(ActiveEcho(q, limits, generation), limits, generation, q.ops[q.active.value].command.mode)
  {
  }

  lemma ReserveSound(q: Queue, limits: Limits, generation: int)
    requires Known(q) && Encodable(q, limits) && EchoesSound(q, limits, generation)
    ensures EchoesSound(Reserve(q, limits, generation), limits, generation)
  {
    if SentFan(q) {
      ActiveEchoIsEcho(q, limits, generation);
      PushKeeps(q.superseded, ActiveEcho(q, limits, generation), limits, generation, q.ops[q.active.value].command.mode);
    }
  }

  lemma SupersedeSound(q: Queue, limits: Limits, generation: int)
    requires Known(q) && Encodable(q, limits) && EchoesSound(q, limits, generation)
    requires SentFan(q) ==> Known(SupersededByPhysical(q)) && Encodable(SupersededByPhysical(q), limits)
    ensures EchoesSound(SupersedeByPhysical(q, limits, generation), limits, generation)
    ensures SupersedeByPhysical(q, limits, generation).cancelled == q.cancelled
  {
    if SentFan(q) && q.ops[q.active.value].outcome == Open {
      ReserveSound(SupersededByPhysical(q), limits, generation);
    }
  }

  lemma CorrelateSound(q: Queue, limits: Limits, generation: int)
    requires Known(q) && Encodable(q, limits) && EchoesSound(q, limits, generation)
    ensures EchoesSound(DiscardReservation(q, limits, generation), limits, generation)
  {
    if q.active.Some? && q.ops[q.active.value].command.SetFanMode? {
      WithoutKeeps(q.superseded, ActiveEcho(q, limits, generation), limits, generation);
    }
  }

  lemma ConsumeSound(q: Queue, limits: Limits, generation: int, frame: seq<byte>)
    requires EchoesSound(q, limits, generation)
    ensures EchoesSound(Consume(q, generation, frame), limits, generation)
  {
    WithoutKeeps(q.superseded, (generation, frame), limits, generation);
  }

  lemma SendSound(q: Queue, limits: Limits, id: nat, generation: int)
    requires id < |q.ops| && Encodable(q, limits) && EchoesSound(q, limits, generation)
    ensures EchoesSound(RecordSend(q, limits, id, generation), limits, generation)
  {
    if q.ops[id].command.SetFanMode? {
      var echo := (generation, RequestFrame(limits, q.ops[id].command));
      OthersKeeps(q.cancelled, echo, limits, generation);
      OthersKeeps(q.superseded, echo, limits, generation);
    }
  }

  /** Cancelling a sent, active fan command quarantines its frame and nothing else. */
  lemma CancelSound(q: Queue, limits: Limits, id: nat, generation: int)
    requires Known(q) && Encodable(q, limits) && id < |q.ops| && EchoesSound(q, limits, generation)
    ensures var r := Cancel(q, limits, id, Some(generation));
      && EchoesSound(r, limits, generation)
      && r.superseded == q.superseded
      && forall e :: e in r.cancelled <==>
           e in q.cancelled || (q.active == Some(id) && SentFan(q) && e == ActiveEcho(q, limits, generation))
  {
    if q.active == Some(id) && SentFan(q) {
      ActiveEchoIsEcho(q, limits, generation);
      PushKeeps(q.cancelled, ActiveEcho(q, limits, generation), limits, generation, q.ops[id].command.mode);
    }
  }

  // ---- distinct modes have distinct frames ----

  lemma FramesTellModesApart(profile: Profile, a: FanMode, b: FanMode)
    requires Encode(profile, SetFanMode(a)).Ok? && Encode(profile, SetFanMode(b)).Ok?
    ensures Encode(profile, SetFanMode(a)) == Encode(profile, SetFanMode(b)) <==> a == b
  {
    FanFrameBytes(profile, a);
    FanFrameBytes(profile, b);
  }

  /** Only fan commands framed as 3a 05 can be mistaken for their own stale echo. */
  lemma FanFramesAreEchoes(profile: Profile, mode: FanMode)
    requires Encode(profile, SetFanMode(mode)).Ok?
    ensures IsFanEcho(Encode(profile, SetFanMode(mode)).value) <==> profile.fan == Fan3a
  {
    FanFrameBytes(profile, mode);
  }
}
