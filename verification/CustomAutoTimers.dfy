/** Timers ask for samples and nothing else: they never change a command. */
module CustomAutoTimers {
  import opened Models
  import opened CustomAutoPolicy

  function StripUpshift(u: Option<Upshift>): Option<Upshift> {
    if u.Some? then Some(u.value.(sampleRequested := false)) else None
  }

  function StripDwells(ds: seq<Dwell>): seq<Dwell> {
    seq(|ds|, i requires 0 <= i < |ds| => ds[i].(sampleRequested := false))
  }

  /** The state without its record of which timers have already asked for a sample. */
  function Strip(s: PolicyState): PolicyState {
    s.(upshift := StripUpshift(s.upshift), downshifts := StripDwells(s.downshifts))
  }

  // ---- stripping commutes with everything the policy does with dwells ----

  lemma {:induction false} BelowStrip(ds: seq<Dwell>, level: int)
    ensures Below(StripDwells(ds), level) == StripDwells(Below(ds, level))
  {
    if ds != [] {
      BelowStrip(ds[1..], level);
      assert StripDwells(ds)[1..] == StripDwells(ds[1..]);
    }
  }

  lemma {:induction false} AtOrAboveStrip(ds: seq<Dwell>, level: int)
    ensures AtOrAbove(StripDwells(ds), level) == StripDwells(AtOrAbove(ds, level))
  {
    if ds != [] {
      AtOrAboveStrip(ds[1..], level);
      assert StripDwells(ds)[1..] == StripDwells(ds[1..]);
    }
  }

  lemma {:induction false} FindStrip(ds: seq<Dwell>, level: int)
    ensures var d := FindDwell(ds, level);
      FindDwell(StripDwells(ds), level) == if d.Some? then Some(d.value.(sampleRequested := false)) else None
  {
    if ds != [] {
      FindStrip(ds[..|ds| - 1], level);
      assert StripDwells(ds)[..|ds| - 1] == StripDwells(ds[..|ds| - 1]);
    }
  }

  lemma CrossingsStrip(ds: seq<Dwell>, desired: Level, confirmed: Level, revision: int, at: real)
    requires desired <= confirmed
    ensures Crossings(StripDwells(ds), desired, confirmed, revision, at)
         == StripDwells(Crossings(ds, desired, confirmed, revision, at))
  {
    var a := Crossings(StripDwells(ds), desired, confirmed, revision, at);
    var b := StripDwells(Crossings(ds, desired, confirmed, revision, at));
    forall i | 0 <= i < |a|
      ensures a[i] == b[i]
    {
      FindStrip(ds, desired + i);
    }
  }

  lemma {:induction false} LowestMaturedStrip(ds: seq<Dwell>, o: Options, revision: int, at: real)
    ensures LowestMatured(StripDwells(ds), o, revision, at) == LowestMatured(ds, o, revision, at)
  {
    if ds != [] {
      LowestMaturedStrip(ds[1..], o, revision, at);
      assert StripDwells(ds)[1..] == StripDwells(ds[1..]);
    }
  }

  /** Both results carry the same target and agree once stripped. */
  predicate Alike(a: PolicyResult, b: PolicyResult) {
    a.target == b.target && Strip(a.state) == Strip(b.state)
  }

  lemma EmitStrip(s: PolicyState, o: Options, level: Level)
    ensures Alike(Emit(Strip(s), o, level), Emit(s, o, level))
  {
    BelowStrip(s.downshifts, level);
    StripTwice(Emit(s, o, level).state);
  }

  lemma StripTwice(s: PolicyState)
    ensures Strip(Strip(s)) == Strip(s)
  {
  }

  lemma HysteresisStrip(s: PolicyState, o: Options, confirmed: Level, desired: Level, revision: int, at: real)
    ensures Alike(Hysteresis(Strip(s), o, confirmed, desired, revision, at),
                  Hysteresis(s, o, confirmed, desired, revision, at))
  {
    if desired > confirmed {
      assert StripDwells([]) == [];
      EmitStrip(s.(downshifts := []), o, desired);
    } else if desired < confirmed {
      var ds := Crossings(s.downshifts, desired, confirmed, revision, at);
      CrossingsStrip(s.downshifts, desired, confirmed, revision, at);
      LowestMaturedStrip(ds, o, revision, at);
      var t := s.(upshift := None, downshifts := ds);
      StripTwice(t);
      var m := LowestMatured(ds, o, revision, at);
      if m.Some? {
        EmitStrip(t, o, m.value);
      }
    }
  }

  lemma AcceptedStrip(s: PolicyState, o: Options, desired: Level, revision: int, at: real)
    ensures Alike(EvaluateAccepted(Strip(s), o, desired, revision, at),
                  EvaluateAccepted(s, o, desired, revision, at))
  {
    EmitStrip(s, o, desired);
    if s.failedLevel.Some? {
      EmitStrip(s, o, s.failedLevel.value);
    }
    if s.confirmedLevel.Some? {
      HysteresisStrip(s, o, s.confirmedLevel.value, desired, revision, at);
      HysteresisStrip(ClearFailure(s), o, s.confirmedLevel.value, desired, revision, at);
      assert Strip(ClearFailure(s)) == ClearFailure(Strip(s));
    }
  }

  /** An operation sees only the stripped state. */
  lemma StepStrip(s: PolicyState, o: Options, op: Op)
    ensures Alike(Step(Strip(s), o, op), Step(s, o, op))
  {
    StripTwice(s);
    match op
    case Observe(pm25, revision, at) =>
      if Accepts(s, o, pm25, revision, at) {
        var desired := LevelForPm25(pm25.value, o);
        var t := s.(lastRevision := Some(revision));
        assert Strip(t) == Strip(s).(lastRevision := Some(revision));
        if s.pendingTarget.None? {
          AcceptedStrip(t, o, desired, revision, at);
        } else {
          AtOrAboveStrip(s.downshifts, desired);
          StripTwice(EvaluateObservation(s, o, pm25, revision, at).state);
        }
      }
    case Boundary(now) =>
      TimersOnlyMark(s, o, now);
      TimersOnlyMark(Strip(s), o, now);
    case Acknowledge(mode) =>
      var c := ConfirmPending(s, mode);
      if c.Ok? {
        BelowStrip(s.downshifts, c.value.confirmedLevel.value);
        var d := s.deferred;
        var idle := c.value.(deferred := None);
        assert ConfirmPending(Strip(s), mode) == Ok(Strip(c.value));
        assert Strip(c.value).(deferred := None) == Strip(idle);
        StripTwice(idle);
        if d.Some? {
          AcceptedStrip(idle, o, LevelForPm25(d.value.pm25, o), d.value.revision, d.value.observedAt);
        }
      }
    case Fail => StripTwice(MarkFailed(s));
    case Forget =>
    case Rebased(mode) =>
  }

  /** A firing changes no more than the record of requested samples and emits no target. */
  lemma TimersOnlyMark(s: PolicyState, o: Options, now: real)
    ensures EvaluateBoundary(s, o, now).target.None?
    ensures Strip(EvaluateBoundary(s, o, now).state) == Strip(s)
  {
  }

  // ---- whole runs ----

  /** The run without its timer firings. */
  function WithoutTimers(ops: seq<Op>): seq<Op> {
    if ops == [] then []
    else
      var last := ops[|ops| - 1];
      WithoutTimers(ops[..|ops| - 1]) + if last.Boundary? then [] else [last]
  }

  /** The targets a run emits, in order. */
  function Targets(s: PolicyState, o: Options, ops: seq<Op>): seq<FanMode> {
    if ops == [] then []
    else
      var before := ops[..|ops| - 1];
      var r := Step(Run(s, o, before), o, ops[|ops| - 1]);
      Targets(s, o, before) + if r.target.Some? then [r.target.value] else []
  }

  /** Timer firings inserted anywhere in any run change no emitted target, and leave
    * a state that differs only in which samples have been requested. */
  lemma {:induction false} TimersNeverInfluenceCommands(s: PolicyState, o: Options, ops: seq<Op>)
    ensures Targets(s, o, ops) == Targets(s, o, WithoutTimers(ops))
    ensures Strip(Run(s, o, ops)) == Strip(Run(s, o, WithoutTimers(ops)))
  {
    if ops != [] {
      var before, op := ops[..|ops| - 1], ops[|ops| - 1];
      TimersNeverInfluenceCommands(s, o, before);
      var a, b := Run(s, o, before), Run(s, o, WithoutTimers(before));
      if op.Boundary? {
        TimersOnlyMark(a, o, op.now);
        assert WithoutTimers(ops) == WithoutTimers(before);
        assert Targets(s, o, ops) == Targets(s, o, before);
      } else {
        assert WithoutTimers(ops)[..|WithoutTimers(ops)| - 1] == WithoutTimers(before);
        StepStrip(a, o, op);
        StepStrip(b, o, op);
      }
    }
  }

  // ---- a firing makes progress ----

  function Unrequested(ds: seq<Dwell>): nat {
    if ds == [] then 0 else (if ds[0].sampleRequested then 0 else 1) + Unrequested(ds[1..])
  }

  /** How many timers have not asked for a sample yet. */
  function Waiting(s: PolicyState): nat {
    (if s.upshift.Some? && !s.upshift.value.sampleRequested then 1 else 0) + Unrequested(s.downshifts)
  }

  lemma {:induction false} BoundariesOfDwells(ds: seq<Dwell>, o: Options)
    ensures forall d | d in ds && !d.sampleRequested :: DwellBoundary(d, o) in DwellBoundaries(ds, o)
    ensures forall b | b in DwellBoundaries(ds, o) ::
      exists i :: 0 <= i < |ds| && !ds[i].sampleRequested && DwellBoundary(ds[i], o) == b
  {
    if ds != [] {
      var rest := ds[1..];
      BoundariesOfDwells(rest, o);
      forall b | b in DwellBoundaries(ds, o)
        ensures exists i :: 0 <= i < |ds| && !ds[i].sampleRequested && DwellBoundary(ds[i], o) == b
      {
        if b in DwellBoundaries(rest, o) {
          var j :| 0 <= j < |rest| && !rest[j].sampleRequested && DwellBoundary(rest[j], o) == b;
          assert ds[j + 1] == rest[j];
        } else {
          assert DwellBoundary(ds[0], o) == b;
        }
      }
    }
  }

  lemma {:induction false} MarkedDwells(ds: seq<Dwell>, o: Options, now: real)
    ensures Unrequested(MarkDwells(ds, o, now)) <= Unrequested(ds)
    ensures (exists i :: 0 <= i < |ds| && DwellDue(ds[i], o, now))
       <==> Unrequested(MarkDwells(ds, o, now)) < Unrequested(ds)
  {
    if ds != [] {
      var rest := ds[1..];
      MarkedDwells(rest, o, now);
      assert MarkDwells(ds, o, now)[1..] == MarkDwells(rest, o, now);
      assert forall i | 0 <= i < |rest| :: rest[i] == ds[i + 1];
    }
  }

  lemma BoundariesAreDwells(s: PolicyState, o: Options)
    ensures forall b | b in DwellBoundaries(s.downshifts, o) :: b in Boundaries(s, o)
  {
  }

  lemma FiringMarks(s: PolicyState, o: Options, now: real)
    requires o.enabled && now >= 0.0
    ensures var next := NextBoundary(s, o);
      var r := EvaluateBoundary(s, o, now);
      && (r.requestSample <==> next.Some? && next.value <= now)
      && (r.requestSample <==> Waiting(r.state) < Waiting(s))
      && (!r.requestSample ==> r.state == s)
  {
    MarkedDwells(s.downshifts, o, now);
    BoundariesOfDwells(s.downshifts, o);
    BoundariesAreDwells(s, o);
    var r := EvaluateBoundary(s, o, now);
    if s.upshift.Some? && UpshiftDue(s.upshift.value, o, now) {
      assert UpshiftBoundary(s.upshift.value, o) in Boundaries(s, o);
    }
    if !r.requestSample {
      assert r.state.downshifts == s.downshifts;
    }
  }

  lemma FiringLeavesTheFuture(s: PolicyState, o: Options, now: real)
    requires o.enabled && now >= 0.0
    ensures var r := EvaluateBoundary(s, o, now);
      r.nextBoundaryAt.Some? ==> r.nextBoundaryAt.value > now
  {
    BoundariesOfDwells(MarkDwells(s.downshifts, o, now), o);
  }

  /** A firing at or after the next boundary asks for a sample, lowers the number of
    * waiting timers, and leaves every remaining boundary in the future; one before
    * the next boundary, or with no boundary left, changes nothing. */
  lemma FiringMakesProgress(s: PolicyState, o: Options, now: real)
    requires o.enabled && now >= 0.0
    ensures var next := NextBoundary(s, o);
      var r := EvaluateBoundary(s, o, now);
      && (r.requestSample <==> next.Some? && next.value <= now)
      && (r.requestSample <==> Waiting(r.state) < Waiting(s))
      && (!r.requestSample ==> r.state == s)
      && (r.nextBoundaryAt.Some? ==> r.nextBoundaryAt.value > now)
  {
    FiringMarks(s, o, now);
    FiringLeavesTheFuture(s, o, now);
  }
}
