/** Commands are justified by the readings: what a run of the policy has seen when
  * it lowers or raises the fan. */
module CustomAutoHistory {
  import opened Models
  import opened CustomAutoPolicy
  import opened CustomAutoInvariant

  datatype Reading = Reading(level: Level, revision: int, at: real)

  /** The reading an operation adds to the history, if the policy accepts it. */
  function Accepted(s: PolicyState, o: Options, op: Op): seq<Reading> {
    if op.Observe? && Accepts(s, o, op.pm25, op.revision, op.at)
    then [Reading(LevelForPm25(op.pm25.value, o), op.revision, op.at)]
    else []
  }

  /** Every accepted reading of a run, oldest first. */
  function Readings(s: PolicyState, o: Options, ops: seq<Op>): seq<Reading> {
    if ops == [] then []
    else
      var before := ops[..|ops| - 1];
      Readings(s, o, before) + Accepted(Run(s, o, before), o, ops[|ops| - 1])
  }

  lemma RunExtends(s: PolicyState, o: Options, ops: seq<Op>, op: Op)
    ensures Run(s, o, ops + [op]) == Step(Run(s, o, ops), o, op).state
    ensures Readings(s, o, ops + [op]) == Readings(s, o, ops) + Accepted(Run(s, o, ops), o, op)
  {
    assert (ops + [op])[..|ops|] == ops;
  }

  predicate Increasing(h: seq<Reading>) {
    forall i, j | 0 <= i < j < |h| :: h[i].revision < h[j].revision
  }

  predicate HistoryMatches(s: PolicyState, o: Options, h: seq<Reading>) {
    && Increasing(h)
    && (h != [] ==> s.lastRevision == Some(h[|h| - 1].revision))
    && (s.deferred.Some? ==>
          h != [] && h[|h| - 1]
            == Reading(LevelForPm25(s.deferred.value.pm25, o), s.deferred.value.revision, s.deferred.value.observedAt))
  }

  /** Reading i opened the crossing d. */
  predicate Opened(h: seq<Reading>, i: int, d: Dwell) {
    0 <= i < |h| && h[i].revision == d.revision && h[i].at == d.startedAt
  }

  predicate AllAtMost(h: seq<Reading>, i: int, level: int) {
    forall k | 0 <= i <= k < |h| :: h[k].level <= level
  }

  predicate AllAbove(h: seq<Reading>, i: int, level: int) {
    forall k | 0 <= i <= k < |h| :: h[k].level > level
  }

  /** d was opened by a reading from which on every reading stays at or below its level. */
  ghost predicate DwellHeld(h: seq<Reading>, d: Dwell) {
    exists i :: Opened(h, i, d) && AllAtMost(h, i, d.level)
  }

  ghost predicate DwellsHeld(h: seq<Reading>, ds: seq<Dwell>) {
    forall d | d in ds :: DwellHeld(h, d)
  }

  predicate Began(h: seq<Reading>, i: int, u: Upshift) {
    0 <= i < |h| && h[i].revision == u.revision && h[i].at == u.startedAt
  }

  ghost predicate UpshiftHeld(h: seq<Reading>, s: PolicyState) {
    s.upshift.Some? && s.confirmedLevel.Some? ==>
      exists i :: Began(h, i, s.upshift.value) && AllAbove(h, i, s.confirmedLevel.value)
  }

  // ---- what a justified command looks like ----

  /** Two readings of increasing revision, at least `delay` apart, the later one newest. */
  predicate Spans(h: seq<Reading>, i: int, delay: real) {
    && 0 <= i < |h| - 1
    && h[i].revision < h[|h| - 1].revision
    && h[|h| - 1].at >= h[i].at + delay
  }

  ghost predicate DownshiftWarranted(o: Options, h: seq<Reading>, level: LowerLevel) {
    exists i :: Spans(h, i, DownshiftDelay(o, level)) && AllAtMost(h, i, level)
  }

  ghost predicate UpshiftWarranted(o: Options, h: seq<Reading>, confirmed: Level, level: Level) {
    && h != [] && h[|h| - 1].level == level
    && exists i :: Spans(h, i, UpshiftDelay(o)) && AllAbove(h, i, confirmed)
  }

  /** The level the policy holds when an operation evaluates a reading. */
  function HeldLevel(s: PolicyState, op: Op): Option<Level> {
    if op.Acknowledge? && s.pendingTarget == Some(op.mode) then LevelForMode(op.mode) else s.confirmedLevel
  }

  /** A failed command is repeated at once by this reading. */
  predicate Retries(s: PolicyState, desired: Level) {
    && s.confirmedLevel.Some? && s.failedLevel.Some?
    && if s.failedLevel.value < s.confirmedLevel.value then desired <= s.failedLevel.value
       else desired != s.confirmedLevel.value
  }

  /** A retried downshift while the lowest recorded dwell is below the new reading:
    * the retry keeps that dwell although the reading no longer supports it. */
  predicate KeepsStaleDwell(s: PolicyState, desired: Level) {
    && s.confirmedLevel.Some? && s.failedLevel.Some?
    && desired <= s.failedLevel.value < s.confirmedLevel.value
    && s.downshifts != [] && s.downshifts[0].level < desired
  }

  /** The dwells and the pending upshift are all held by the readings. */
  ghost predicate Justified(h: seq<Reading>, s: PolicyState) {
    DwellsHeld(h, s.downshifts) && UpshiftHeld(h, s)
  }

  /** A target below the confirmed level has dwelt; one above it is confirmed by two readings. */
  ghost predicate TargetWarranted(o: Options, h: seq<Reading>, confirmed: Level, target: FanMode) {
    var level := LevelForMode(target);
    && level.Some?
    && (level.value < confirmed ==> DownshiftWarranted(o, h, level.value))
    && (level.value > confirmed && UpshiftDelay(o) > 0.0 ==> UpshiftWarranted(o, h, confirmed, level.value))
  }

  // ---- growing the history ----

  lemma HeldByNewReading(h: seq<Reading>, r: Reading, ds: seq<Dwell>)
    requires DwellsHeld(h, ds)
    requires forall d | d in ds :: r.level <= d.level
    ensures DwellsHeld(h + [r], ds)
  {
    forall d | d in ds
      ensures DwellHeld(h + [r], d)
    {
      var i :| Opened(h, i, d) && AllAtMost(h, i, d.level);
      assert Opened(h + [r], i, d) && AllAtMost(h + [r], i, d.level);
    }
  }

  lemma {:induction false} BelowIsSubset(ds: seq<Dwell>, level: int)
    ensures forall d | d in Below(ds, level) :: d in ds && d.level < level
  {
    if ds != [] {
      BelowIsSubset(ds[1..], level);
    }
  }

  lemma {:induction false} AtOrAboveIsSubset(ds: seq<Dwell>, level: int)
    ensures forall d | d in AtOrAbove(ds, level) :: d in ds && level <= d.level
  {
    if ds != [] {
      AtOrAboveIsSubset(ds[1..], level);
    }
  }

  /** The dwells computed for the newest reading are held by the history. */
  lemma CrossingsHeld(h: seq<Reading>, ds: seq<Dwell>, desired: Level, confirmed: Level)
    requires h != [] && h[|h| - 1].level == desired <= confirmed
    requires forall d | d in ds && desired <= d.level :: DwellHeld(h, d)
    ensures DwellsHeld(h, Crossings(ds, desired, confirmed, h[|h| - 1].revision, h[|h| - 1].at))
  {
    var r := h[|h| - 1];
    var cs := Crossings(ds, desired, confirmed, r.revision, r.at);
    forall d | d in cs
      ensures DwellHeld(h, d)
    {
      var i :| 0 <= i < |cs| && cs[i] == d;
      if d !in ds {
        assert Opened(h, |h| - 1, d) && AllAtMost(h, |h| - 1, d.level);
      }
    }
  }

  /** A mature dwell warrants its downshift. */
  lemma MaturedIsWarranted(o: Options, h: seq<Reading>, d: Dwell)
    requires h != [] && Increasing(h) && DwellHeld(h, d)
    requires Matured(d, o, h[|h| - 1].revision, h[|h| - 1].at)
    ensures DownshiftWarranted(o, h, d.level)
  {
    var i :| Opened(h, i, d) && AllAtMost(h, i, d.level);
    assert Spans(h, i, DownshiftDelay(o, d.level));
  }

  // ---- one evaluation of the newest reading ----

  lemma ClimbIsJustified(s: PolicyState, o: Options, h: seq<Reading>, confirmed: Level)
    requires s.confirmedLevel == Some(confirmed)
    requires h != [] && Increasing(h) && h[|h| - 1].level > confirmed
    requires UpshiftHeld(h, s)
    ensures var r := h[|h| - 1];
      var e := Hysteresis(s, o, confirmed, r.level, r.revision, r.at);
      && Justified(h, e.state)
      && (e.target.Some? ==> TargetWarranted(o, h, confirmed, e.target.value))
  {
    var r := h[|h| - 1];
    var e := Hysteresis(s, o, confirmed, r.level, r.revision, r.at);
    ModeAndLevelAreInverse(r.level, Auto);
    assert Below([], r.level) == [];
    if UpshiftDelay(o) == 0.0 {
    } else if s.upshift.Some? {
      var i :| Began(h, i, s.upshift.value) && AllAbove(h, i, confirmed);
      if e.target.Some? && i < |h| - 1 {
        assert Spans(h, i, UpshiftDelay(o));
      }
    } else {
      assert Began(h, |h| - 1, e.state.upshift.value) && AllAbove(h, |h| - 1, confirmed);
    }
  }

  lemma DescentIsJustified(s: PolicyState, o: Options, h: seq<Reading>, confirmed: Level)
    requires s.confirmedLevel == Some(confirmed)
    requires h != [] && Increasing(h) && h[|h| - 1].level <= confirmed
    requires forall d | d in s.downshifts && h[|h| - 1].level <= d.level :: DwellHeld(h, d)
    ensures var r := h[|h| - 1];
      var e := Hysteresis(s, o, confirmed, r.level, r.revision, r.at);
      && Justified(h, e.state)
      && (e.target.Some? ==> TargetWarranted(o, h, confirmed, e.target.value))
  {
    var r := h[|h| - 1];
    if r.level < confirmed {
      var ds := Crossings(s.downshifts, r.level, confirmed, r.revision, r.at);
      CrossingsHeld(h, s.downshifts, r.level, confirmed);
      LowestMaturedIs(ds, o, r.revision, r.at);
      var m := LowestMatured(ds, o, r.revision, r.at);
      if m.Some? {
        BelowIsSubset(ds, m.value);
        ModeAndLevelAreInverse(m.value, Auto);
        var d :| d in ds && d.level == m.value && Matured(d, o, r.revision, r.at);
        MaturedIsWarranted(o, h, d);
      }
    }
  }

  lemma EvaluationIsJustified(s: PolicyState, o: Options, h: seq<Reading>, confirmed: Level)
    requires Inv(s) && s.pendingTarget.None? && s.confirmedLevel == Some(confirmed)
    requires h != [] && Increasing(h)
    requires forall d | d in s.downshifts && h[|h| - 1].level <= d.level :: DwellHeld(h, d)
    requires h[|h| - 1].level > confirmed ==> UpshiftHeld(h, s)
    ensures var r := h[|h| - 1];
      var e := EvaluateAccepted(s, o, r.level, r.revision, r.at);
      && (Justified(h, e.state) <==> !KeepsStaleDwell(s, r.level))
      && (e.target.Some? && !Retries(s, r.level) ==> TargetWarranted(o, h, confirmed, e.target.value))
  {
    var r := h[|h| - 1];
    var e := EvaluateAccepted(s, o, r.level, r.revision, r.at);
    if s.failedLevel.Some? && r.level <= s.failedLevel.value < confirmed {
      var failed := s.failedLevel.value;
      BelowIsSubset(s.downshifts, failed);
      if KeepsStaleDwell(s, r.level) {
        var d := s.downshifts[0];
        assert Below(s.downshifts, failed)[0] == d;
        assert d in e.state.downshifts && !DwellHeld(h, d);
      } else {
        assert forall d | d in s.downshifts :: r.level <= d.level;
      }
    } else if s.failedLevel.None? || s.failedLevel.value < confirmed {
      if r.level > confirmed {
        ClimbIsJustified(ClearFailure(s), o, h, confirmed);
      } else {
        DescentIsJustified(ClearFailure(s), o, h, confirmed);
      }
      assert s.failedLevel.None? ==> ClearFailure(s) == s;
    }
  }

  // ---- one operation ----

  /** The reading evaluated without a command in flight, if the operation is one. */
  predicate Evaluates(s: PolicyState, o: Options, op: Op) {
    op.Observe? && Accepts(s, o, op.pm25, op.revision, op.at) && s.pendingTarget.None?
  }

  predicate RetryStep(s: PolicyState, o: Options, op: Op) {
    Evaluates(s, o, op) && Retries(s, LevelForPm25(op.pm25.value, o))
  }

  predicate StaleStep(s: PolicyState, o: Options, op: Op) {
    Evaluates(s, o, op) && KeepsStaleDwell(s, LevelForPm25(op.pm25.value, o))
  }

  lemma SameMemoryMatches(s: PolicyState, t: PolicyState, o: Options, h: seq<Reading>)
    requires HistoryMatches(s, o, h) && t.lastRevision == s.lastRevision
    requires t.deferred == s.deferred || t.deferred == None
    ensures HistoryMatches(t, o, h)
  {
  }

  lemma NewReadingMatches(s: PolicyState, t: PolicyState, o: Options, h: seq<Reading>, r: Reading)
    requires HistoryMatches(s, o, h) && (s.lastRevision.Some? ==> r.revision > s.lastRevision.value)
    requires t.lastRevision == Some(r.revision)
    requires t.deferred.Some? ==>
      r == Reading(LevelForPm25(t.deferred.value.pm25, o), t.deferred.value.revision, t.deferred.value.observedAt)
    ensures HistoryMatches(t, o, h + [r])
  {
  }

  /** What an accepted observation leaves in the revision memory and the deferred slot. */
  lemma ObservationRemembers(s: PolicyState, o: Options, pm25: Option<int>, revision: int, at: real)
    requires Inv(s) && Accepts(s, o, pm25, revision, at)
    ensures var t := EvaluateObservation(s, o, pm25, revision, at).state;
      t.lastRevision == Some(revision)
      && t.deferred == if s.pendingTarget.Some? then Some(Deferred(pm25.value, revision, at)) else None
  {
    EvaluationFrame(s.(lastRevision := Some(revision)), o, LevelForPm25(pm25.value, o), revision, at);
  }

  lemma ObservationGrowsHistory(s: PolicyState, o: Options, op: Op, h: seq<Reading>)
    requires op.Observe? && Inv(s) && HistoryMatches(s, o, h)
    ensures HistoryMatches(Step(s, o, op).state, o, h + Accepted(s, o, op))
  {
    if Accepts(s, o, op.pm25, op.revision, op.at) {
      ObservationRemembers(s, o, op.pm25, op.revision, op.at);
      NewReadingMatches(s, Step(s, o, op).state, o, h, Reading(LevelForPm25(op.pm25.value, o), op.revision, op.at));
    } else {
      assert h + [] == h;
    }
  }

  /** An acknowledgement releases the deferred reading and remembers no new one. */
  lemma AcknowledgementForgets(s: PolicyState, o: Options, mode: FanMode)
    ensures var t := Step(s, o, Acknowledge(mode)).state;
      t.lastRevision == s.lastRevision && (t.deferred == s.deferred || t.deferred == None)
  {
    if ConfirmPending(s, mode).Ok? && s.deferred.Some? {
      var d := s.deferred.value;
      EvaluationFrame(ConfirmPending(s, mode).value.(deferred := None), o, LevelForPm25(d.pm25, o),
                      d.revision, d.observedAt);
    }
  }

  lemma OthersForget(s: PolicyState, o: Options, op: Op)
    requires !op.Observe? && !op.Acknowledge?
    ensures var t := Step(s, o, op).state;
      t.lastRevision == s.lastRevision && (t.deferred == s.deferred || t.deferred == None)
  {
  }

  lemma HistoryGrows(s: PolicyState, o: Options, op: Op, h: seq<Reading>)
    requires Inv(s) && HistoryMatches(s, o, h)
    ensures HistoryMatches(Step(s, o, op).state, o, h + Accepted(s, o, op))
  {
    if op.Observe? {
      ObservationGrowsHistory(s, o, op, h);
    } else {
      assert h + [] == h;
      if op.Acknowledge? {
        AcknowledgementForgets(s, o, op.mode);
      } else {
        OthersForget(s, o, op);
      }
      SameMemoryMatches(s, Step(s, o, op).state, o, h);
    }
  }

  lemma ObservationIsJustified(s: PolicyState, o: Options, op: Op, h: seq<Reading>)
    requires op.Observe? && Accepts(s, o, op.pm25, op.revision, op.at)
    requires Inv(s) && HistoryMatches(s, o, h) && Justified(h, s)
    ensures var t := Step(s, o, op);
      var h' := h + Accepted(s, o, op);
      && (Justified(h', t.state) <==> !StaleStep(s, o, op))
      && (t.target.Some? && s.confirmedLevel.Some? && !RetryStep(s, o, op) ==>
            TargetWarranted(o, h', s.confirmedLevel.value, t.target.value))
  {
    var r := Reading(LevelForPm25(op.pm25.value, o), op.revision, op.at);
    var h' := h + [r];
    HistoryGrows(s, o, op, h);
    AtOrAboveIsSubset(s.downshifts, r.level);
    HeldByNewReading(h, r, AtOrAbove(s.downshifts, r.level));
    if s.pendingTarget.None? && s.confirmedLevel.Some? {
      var confirmed := s.confirmedLevel.value;
      if s.upshift.Some? && r.level > confirmed {
        var i :| Began(h, i, s.upshift.value) && AllAbove(h, i, confirmed);
        assert Began(h', i, s.upshift.value) && AllAbove(h', i, confirmed);
      }
      forall d | d in s.downshifts && r.level <= d.level
        ensures DwellHeld(h', d)
      {
        HeldByNewReading(h, r, [d]);
      }
      EvaluationIsJustified(s.(lastRevision := Some(op.revision)), o, h', confirmed);
    }
  }

  lemma AcknowledgementIsJustified(s: PolicyState, o: Options, op: Op, h: seq<Reading>)
    requires op.Acknowledge? && s.pendingTarget == Some(op.mode)
    requires Inv(s) && HistoryMatches(s, o, h) && Justified(h, s)
    ensures var t := Step(s, o, op);
      && Justified(h, t.state)
      && (t.target.Some? ==> TargetWarranted(o, h, HeldLevel(s, op).value, t.target.value))
  {
    AcknowledgeKeeps(s, o, op.mode);
    AcknowledgeKeeps(s.(deferred := None), o, op.mode);
    var c := ConfirmPending(s, op.mode).value;
    BelowIsSubset(s.downshifts, c.confirmedLevel.value);
    if s.deferred.Some? {
      EvaluationIsJustified(c.(deferred := None), o, h, c.confirmedLevel.value);
    }
  }

  /** Firing a boundary only marks dwells and the pending upshift. */
  lemma BoundaryIsJustified(s: PolicyState, o: Options, now: real, h: seq<Reading>)
    requires Justified(h, s)
    ensures Justified(h, EvaluateBoundary(s, o, now).state)
  {
    var t := EvaluateBoundary(s, o, now).state;
    forall d' | d' in t.downshifts
      ensures DwellHeld(h, d')
    {
      var k :| 0 <= k < |t.downshifts| && t.downshifts[k] == d';
      var d := s.downshifts[k];
      assert DwellHeld(h, d);
      var i :| Opened(h, i, d) && AllAtMost(h, i, d.level);
      assert Opened(h, i, d') && AllAtMost(h, i, d'.level);
    }
    if t.upshift.Some? && t.confirmedLevel.Some? {
      var i :| Began(h, i, s.upshift.value) && AllAbove(h, i, s.confirmedLevel.value);
      assert Began(h, i, t.upshift.value);
    }
  }

  lemma OtherStepsAreJustified(s: PolicyState, o: Options, op: Op, h: seq<Reading>)
    requires Justified(h, s)
    requires !(op.Observe? && Accepts(s, o, op.pm25, op.revision, op.at))
    requires !(op.Acknowledge? && s.pendingTarget == Some(op.mode))
    ensures Justified(h, Step(s, o, op).state) && Step(s, o, op).target.None?
    ensures Accepted(s, o, op) == [] && !StaleStep(s, o, op)
  {
    if op.Boundary? {
      BoundaryIsJustified(s, o, op.now, h);
    }
  }

  /** One operation keeps every dwell and upshift justified exactly when it is not
    * a retry that carries a stale dwell over, and any target it emits outside a
    * retry is warranted by the readings. */
  lemma StepIsJustified(s: PolicyState, o: Options, op: Op, h: seq<Reading>)
    requires Inv(s) && HistoryMatches(s, o, h) && Justified(h, s)
    ensures var t := Step(s, o, op);
      var h' := h + Accepted(s, o, op);
      && HistoryMatches(t.state, o, h')
      && (Justified(h', t.state) <==> !StaleStep(s, o, op))
      && (t.target.Some? && HeldLevel(s, op).Some? && !RetryStep(s, o, op) ==>
            TargetWarranted(o, h', HeldLevel(s, op).value, t.target.value))
  {
    HistoryGrows(s, o, op, h);
    assert h + [] == h;
    if op.Observe? && Accepts(s, o, op.pm25, op.revision, op.at) {
      ObservationIsJustified(s, o, op, h);
    } else if op.Acknowledge? && s.pendingTarget == Some(op.mode) {
      AcknowledgementIsJustified(s, o, op, h);
    } else {
      OtherStepsAreJustified(s, o, op, h);
    }
  }

  // ---- whole runs ----

  /** No step of the run is a retry that carries a stale dwell over. */
  predicate StaleFree(s: PolicyState, o: Options, ops: seq<Op>) {
    ops == [] || (
      var before := ops[..|ops| - 1];
      StaleFree(s, o, before) && !StaleStep(Run(s, o, before), o, ops[|ops| - 1]))
  }

  lemma {:induction false} RunIsJustified(mode: Option<FanMode>, o: Options, ops: seq<Op>)
    requires StaleFree(InitialState(mode), o, ops)
    ensures var s := Run(InitialState(mode), o, ops);
      var h := Readings(InitialState(mode), o, ops);
      Inv(s) && HistoryMatches(s, o, h) && Justified(h, s)
  {
    ReachableStatesSatisfyInv(mode, o, ops);
    if ops != [] {
      var before := ops[..|ops| - 1];
      RunIsJustified(mode, o, before);
      StepIsJustified(Run(InitialState(mode), o, before), o, ops[|ops| - 1],
                      Readings(InitialState(mode), o, before));
    }
  }

  /** After every operation of the run all dwells and the pending upshift are held. */
  ghost predicate AlwaysJustified(s: PolicyState, o: Options, ops: seq<Op>) {
    Justified(Readings(s, o, ops), Run(s, o, ops)) && (ops != [] ==> AlwaysJustified(s, o, ops[..|ops| - 1]))
  }

  /** The retry that carries a contradicted dwell over is the only operation after which
    * the readings do not hold every stored dwell. */
  lemma {:induction false} DwellsAreHeldExactly(mode: Option<FanMode>, o: Options, ops: seq<Op>)
    ensures AlwaysJustified(InitialState(mode), o, ops) <==> StaleFree(InitialState(mode), o, ops)
  {
    if ops != [] {
      var before := ops[..|ops| - 1];
      DwellsAreHeldExactly(mode, o, before);
      if StaleFree(InitialState(mode), o, before) {
        RunIsJustified(mode, o, before);
        StepIsJustified(Run(InitialState(mode), o, before), o, ops[|ops| - 1], Readings(InitialState(mode), o, before));
      }
    }
  }

  predicate FailureFree(ops: seq<Op>) {
    forall k | 0 <= k < |ops| :: !ops[k].Fail?
  }

  predicate Unmarked(s: PolicyState) {
    s.failedLevel.None? && s.failedRevision.None?
  }

  lemma StaysUnmarked(s: PolicyState, o: Options, op: Op)
    requires Unmarked(s) && !op.Fail?
    ensures Unmarked(Step(s, o, op).state) && !StaleStep(s, o, op)
  {
  }

  lemma {:induction false} FailureFreeHasNoMarker(mode: Option<FanMode>, o: Options, ops: seq<Op>)
    requires FailureFree(ops)
    ensures Unmarked(Run(InitialState(mode), o, ops))
    ensures StaleFree(InitialState(mode), o, ops)
  {
    if ops != [] {
      var n := |ops| - 1;
      FailureFreeHasNoMarker(mode, o, ops[..n]);
      StaysUnmarked(Run(InitialState(mode), o, ops[..n]), o, ops[n]);
    }
  }

  /** Over runs without a command failure, every target emitted against a known
    * level is warranted: downward by a crossing that dwelt its full delay with no
    * reading above it, deferred readings included; upward by two readings. */
  lemma CommandsAreWarranted(mode: Option<FanMode>, o: Options, ops: seq<Op>, op: Op)
    requires FailureFree(ops)
    ensures var s := Run(InitialState(mode), o, ops);
      var t := Step(s, o, op);
      t.target.Some? && HeldLevel(s, op).Some? ==>
        TargetWarranted(o, Readings(InitialState(mode), o, ops + [op]), HeldLevel(s, op).value, t.target.value)
  {
    FailureFreeHasNoMarker(mode, o, ops);
    CommandsAreWarrantedOutsideRetries(mode, o, ops, op);
  }

  /** With failures: what remains true until a retry carries a stale dwell over. */
  lemma CommandsAreWarrantedOutsideRetries(mode: Option<FanMode>, o: Options, ops: seq<Op>, op: Op)
    requires StaleFree(InitialState(mode), o, ops)
    ensures var s := Run(InitialState(mode), o, ops);
      var t := Step(s, o, op);
      t.target.Some? && HeldLevel(s, op).Some? && !RetryStep(s, o, op) ==>
        TargetWarranted(o, Readings(InitialState(mode), o, ops + [op]), HeldLevel(s, op).value, t.target.value)
  {
    RunExtends(InitialState(mode), o, ops, op);
    RunIsJustified(mode, o, ops);
    StepIsJustified(Run(InitialState(mode), o, ops), o, op, Readings(InitialState(mode), o, ops));
  }
}
