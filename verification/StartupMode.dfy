/** The startup fan mode as a scan of the history: after any sequence of decoded frames,
  * acknowledgements and invalidations the cached mode is the verdict of the last input
  * that decides one. */
module StartupMode {
  import opened Frame
  import opened Models
  import opened Protocol
  import opened StateReducer

  datatype Input =
    | Received(event: Event, generation: int, matched: Option<string>)
    | Acknowledged(command: Command, generation: int)
    | Invalidated

  predicate Readable(inputs: seq<Input>) {
    forall x | x in inputs :: x.Received? ==> Decoded(x.event)
  }

  function Apply(r: Reducer, strategy: Startup, x: Input): Reducer
    requires x.Received? ==> Decoded(x.event)
  {
    match x
    case Received(event, generation, matched) => Reduce(r, strategy, event, generation, matched)
    case Acknowledged(command, generation) => ApplyConfirmed(r, command, generation)
    case Invalidated => Invalidate(r)
  }

  function Replay(strategy: Startup, inputs: seq<Input>): Reducer
    requires Readable(inputs)
  {
    if inputs == [] then FRESH_REDUCER
    else Apply(Replay(strategy, inputs[..|inputs| - 1]), strategy, inputs[|inputs| - 1])
  }

  // ---- reading one input ----

  /** A startup answer that the matcher attributed to the query of its own selector. */
  predicate Answer(x: Input, selector: byte) {
    x.Received? && x.event.StartupFan? && x.event.selector == selector && Matched(selector, x.matched)
  }

  /** A physical update, a command acknowledgement or a lost connection. */
  predicate Overrides(x: Input) {
    match x
    case Received(event, _, _) => event.FanUpdate?
    case Acknowledged(command, _) => command.SetFanMode?
    case Invalidated => true
  }

  /** The first half of a selector pair: a manual mode whose level is still to come. */
  predicate Opens(x: Input) {
    Answer(x, 0) && x.event.code == Some(1)
  }

  /** The mode an input stands for, if it decides one. */
  function Verdict(strategy: Startup, x: Input): Option<FanMode>
    requires x.Received? ==> Decoded(x.event)
  {
    match x
    case Received(FanUpdate(mode, _, _, _), _, _) => mode
    case Received(StartupFan(selector, code, level, configuration, _), _, _) =>
      if selector == 1 then ManualMode(configuration.value)
      else if selector != 0 then None
      else if strategy == SelectorZero then DecodeSelectorZero(code.value, level.value)
      else if code == Some(1) then None
      else CodedMode(code.value)
    case Acknowledged(SetFanMode(mode), _) => Some(mode)
    case _ => None
  }

  // ---- reading the history ----

  predicate Binds(x: Input) {
    match x
    case Received(event, _, _) => event.FanUpdate? || Answer(x, 0) || Answer(x, 1) || Answer(x, 3)
    case Acknowledged(command, _) => command.SetFanMode?
    case Invalidated => false
  }

  /** The generation of the last input that carries fan-mode information. */
  function BoundTo(inputs: seq<Input>): Option<int> {
    if inputs == [] then None
    else
      var last := inputs[|inputs| - 1];
      if Binds(last) then Some(last.generation) else BoundTo(inputs[..|inputs| - 1])
  }

  /** The input at k ends whatever pair was open before it. */
  predicate Closes(inputs: seq<Input>, k: nat)
    requires k < |inputs|
  {
    Overrides(inputs[k]) || Answer(inputs[k], 0)
    || (Answer(inputs[k], 1) && BoundTo(inputs[..k]) == Some(inputs[k].generation))
  }

  /** A pair opened at i is still open just before n. */
  predicate OpenSince(inputs: seq<Input>, i: nat, n: nat)
    requires n <= |inputs|
  {
    i < n && Opens(inputs[i]) && forall k | i < k < n :: !Closes(inputs, k)
  }

  ghost predicate Awaits(inputs: seq<Input>, n: nat)
    requires n <= |inputs|
  {
    exists i :: OpenSince(inputs, i, n)
  }

  /** The input at d decides the mode. A selector 01 answer does so only as the second
    * half of an open pair of its own generation. */
  ghost predicate Decides(strategy: Startup, inputs: seq<Input>, d: nat)
    requires d < |inputs|
  {
    Overrides(inputs[d]) || Answer(inputs[d], 0)
    || (strategy == SelectorPair && Answer(inputs[d], 1) && Awaits(inputs, d)
        && BoundTo(inputs[..d]) == Some(inputs[d].generation))
  }

  // ---- the reducer agrees with the scan ----

  lemma {:induction false} GenerationIsBound(strategy: Startup, inputs: seq<Input>)
    requires Readable(inputs)
    ensures Replay(strategy, inputs).generation == BoundTo(inputs)
  {
    if inputs != [] {
      GenerationIsBound(strategy, inputs[..|inputs| - 1]);
    }
  }

  lemma ScanIsLocal(inputs: seq<Input>, m: nat, n: nat)
    requires n <= m <= |inputs|
    ensures forall k | 0 <= k < n :: Closes(inputs[..m], k) == Closes(inputs, k)
    ensures Awaits(inputs[..m], n) == Awaits(inputs, n)
  {
    forall k | 0 <= k < n
      ensures Closes(inputs[..m], k) == Closes(inputs, k)
    {
      assert inputs[..m][..k] == inputs[..k];
    }
    forall i: nat | i < n
      ensures OpenSince(inputs[..m], i, n) == OpenSince(inputs, i, n)
    {
    }
    if i :| OpenSince(inputs[..m], i, n) {
      assert OpenSince(inputs, i, n);
    }
    if i :| OpenSince(inputs, i, n) {
      assert OpenSince(inputs[..m], i, n);
    }
  }

  lemma AwaitsNext(inputs: seq<Input>)
    requires inputs != []
    ensures var n := |inputs| - 1;
      Awaits(inputs, n + 1) <==> Opens(inputs[n]) || (Awaits(inputs, n) && !Closes(inputs, n))
  {
    var n, m := |inputs| - 1, |inputs|;
    if Opens(inputs[n]) {
      assert OpenSince(inputs, n, m);
    } else {
      if i :| OpenSince(inputs, i, m) {
        assert OpenSince(inputs, i, n);
      }
      if i :| OpenSince(inputs, i, n) && !Closes(inputs, n) {
        assert OpenSince(inputs, i, m);
      }
    }
  }

  lemma {:induction false} AwaitingIsAnOpenPair(inputs: seq<Input>)
    requires Readable(inputs)
    ensures Replay(SelectorPair, inputs).awaiting == Awaits(inputs, |inputs|)
  {
    if inputs != [] {
      var n := |inputs| - 1;
      AwaitingIsAnOpenPair(inputs[..n]);
      GenerationIsBound(SelectorPair, inputs[..n]);
      ScanIsLocal(inputs, n, n);
      AwaitsNext(inputs);
      assert inputs[n] in inputs;
      AwaitingAfter(Replay(SelectorPair, inputs[..n]), inputs, n);
    }
  }

  lemma AwaitingAfter(r: Reducer, inputs: seq<Input>, n: nat)
    requires n < |inputs| && (inputs[n].Received? ==> Decoded(inputs[n].event))
    requires r.generation == BoundTo(inputs[..n])
    ensures Apply(r, SelectorPair, inputs[n]).awaiting <==>
      Opens(inputs[n]) || (r.awaiting && !Closes(inputs, n))
  {
  }

  lemma ModeAfter(strategy: Startup, r: Reducer, inputs: seq<Input>, n: nat)
    requires n < |inputs| && (inputs[n].Received? ==> Decoded(inputs[n].event))
    requires r.generation == BoundTo(inputs[..n])
    requires strategy == SelectorPair ==> r.awaiting == Awaits(inputs, n)
    ensures Apply(r, strategy, inputs[n]).state.fanMode ==
      if Decides(strategy, inputs, n) then Verdict(strategy, inputs[n]) else r.state.fanMode
  {
  }

  /** After any history the cached fan mode is the verdict of the last deciding input;
    * without one it is unknown. */
  lemma {:induction false} ModeIsTheLastVerdict(strategy: Startup, inputs: seq<Input>)
    requires Readable(inputs)
    ensures forall d | 0 <= d < |inputs| && Decides(strategy, inputs, d) && (forall k | d < k < |inputs| :: !Decides(strategy, inputs, k)) ::
      Replay(strategy, inputs).state.fanMode == Verdict(strategy, inputs[d])
    ensures (forall d | 0 <= d < |inputs| :: !Decides(strategy, inputs, d)) ==>
      Replay(strategy, inputs).state.fanMode == None
  {
    if inputs != [] {
      var n := |inputs| - 1;
      var before := inputs[..n];
      ModeIsTheLastVerdict(strategy, before);
      GenerationIsBound(strategy, before);
      ScanIsLocal(inputs, n, n);
      if strategy == SelectorPair {
        AwaitingIsAnOpenPair(before);
      }
      assert inputs[n] in inputs;
      ModeAfter(strategy, Replay(strategy, before), inputs, n);
      forall k | 0 <= k < n
        ensures Decides(strategy, before, k) == Decides(strategy, inputs, k)
      {
        DecidesIsLocal(strategy, inputs, n, k);
      }
    }
  }

  lemma DecidesIsLocal(strategy: Startup, inputs: seq<Input>, n: nat, k: nat)
    requires k < n <= |inputs|
    ensures Decides(strategy, inputs[..n], k) == Decides(strategy, inputs, k)
  {
    ScanIsLocal(inputs, n, k);
    assert inputs[..n][..k] == inputs[..k];
  }

  // ---- what the client's discipline adds ----

  /** Between two invalidations every input belongs to one connection generation. */
  predicate Disciplined(inputs: seq<Input>) {
    forall k | 0 < k < |inputs| && !inputs[k - 1].Invalidated? && !inputs[k].Invalidated? ::
      inputs[k - 1].generation == inputs[k].generation
  }

  /** Any input that belongs to the fan-mode conversation, selector 03 aside. */
  predicate Pairwise(x: Input) {
    Overrides(x) || Answer(x, 0) || Answer(x, 1)
  }

  lemma {:induction false} SameGeneration(inputs: seq<Input>, i: nat, d: nat)
    requires Disciplined(inputs) && i <= d < |inputs|
    requires forall k | i <= k <= d :: !inputs[k].Invalidated?
    ensures inputs[i].generation == inputs[d].generation
    decreases d - i
  {
    if i < d {
      SameGeneration(inputs, i, d - 1);
      assert !inputs[d - 1].Invalidated? && !inputs[d].Invalidated?;
    }
  }

  lemma {:induction false} BoundSince(inputs: seq<Input>, i: nat, d: nat)
    requires Disciplined(inputs) && i < d < |inputs| && Binds(inputs[i])
    requires forall k | i <= k <= d :: !inputs[k].Invalidated?
    ensures BoundTo(inputs[..d]) == Some(inputs[d].generation)
    decreases d - i
  {
    var before := inputs[..d];
    SameGeneration(inputs, d - 1, d);
    assert before[..d - 1] == inputs[..d - 1];
    if !Binds(inputs[d - 1]) {
      BoundSince(inputs, i, d - 1);
    }
  }

  /** Under that discipline a manual level comes only from a matched selector 01 whose
    * last predecessor in the conversation is a matched selector 00 with the manual code:
    * no physical update, acknowledgement, invalidation or earlier answer between. */
  lemma LevelsCompleteTheirPair(inputs: seq<Input>, d: nat)
    requires Disciplined(inputs) && d < |inputs| && Answer(inputs[d], 1)
    ensures Decides(SelectorPair, inputs, d) <==>
      exists i :: 0 <= i < d && Opens(inputs[i]) && forall k | i < k < d :: !Pairwise(inputs[k])
  {
    if Decides(SelectorPair, inputs, d) {
      var i: nat :| OpenSince(inputs, i, d);
      forall k | i < k < d
        ensures !Pairwise(inputs[k])
      {
        assert !Closes(inputs, k);
        forall j | i <= j <= k
          ensures !inputs[j].Invalidated?
        {
          assert j > i ==> !Closes(inputs, j);
        }
        if Answer(inputs[k], 1) {
          BoundSince(inputs, i, k);
        }
      }
      assert Opens(inputs[i]);
    }
    if i: nat :| i < d && Opens(inputs[i]) && forall k | i < k < d :: !Pairwise(inputs[k]) {
      assert OpenSince(inputs, i, d);
      BoundSince(inputs, i, d);
    }
  }

  /** Without the discipline a selector 03 answer of a new generation rebinds an open
    * pair, and a level of that generation completes a mode read in the old one. */
  lemma RebindingCompletesAnOldPair(opening: Input, rebinding: Input, level: Input)
    requires opening == Received(StartupFan(0, Some(1), Some(0), None, None), 1, Some("mode_data_00"))
    requires rebinding == Received(StartupFan(3, None, None, None, Some(0)), 2, Some("mode_data_03"))
    requires level == Received(StartupFan(1, None, None, Some(2), None), 2, Some("mode_data_01"))
    ensures Readable([opening, rebinding, level]) && !Disciplined([opening, rebinding, level])
    ensures Replay(SelectorPair, [opening, rebinding, level]).state.fanMode == Some(Medium)
    ensures Replay(SelectorPair, [opening, level]).state.fanMode == None
  {
    var all := [opening, rebinding, level];
    assert all[..2] == [opening, rebinding] && all[..2][..1] == [opening] && [opening, level][..1] == [opening];
    assert [opening][..0] == [];
    assert !all[0].Invalidated? && !all[1].Invalidated? && all[0].generation != all[1].generation;
    assert Replay(SelectorPair, [opening]) == Apply(FRESH_REDUCER, SelectorPair, opening);
    assert Replay(SelectorPair, [opening, rebinding]) == Apply(Replay(SelectorPair, [opening]), SelectorPair, rebinding);
  }
}
