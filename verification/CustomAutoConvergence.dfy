/** Steady air settles the fan: how many readings the policy needs, from any reachable state. */
module CustomAutoConvergence {
  import opened Models
  import opened CustomAutoPolicy
  import opened CustomAutoInvariant

  datatype Sample = Sample(pm25: Pm25, revision: int, at: real)

  function Sensed(s: PolicyState, o: Options, r: Sample): PolicyResult {
    Step(s, o, Observe(Some(r.pm25), r.revision, r.at))
  }

  /** A reading whose command, if it emits one, is acknowledged before the next reading. */
  function Round(s: PolicyState, o: Options, r: Sample): PolicyState {
    var t := Sensed(s, o, r).state;
    if t.pendingTarget.Some? then Step(t, o, Acknowledge(t.pendingTarget.value)).state else t
  }

  function Rounds(s: PolicyState, o: Options, rs: seq<Sample>): PolicyState {
    if rs == [] then s else Round(Rounds(s, o, rs[..|rs| - 1]), o, rs[|rs| - 1])
  }

  /** gap is at least every configured delay. */
  predicate Covers(o: Options, gap: real) {
    && UpshiftDelay(o) <= gap
    && (forall level: LowerLevel :: DownshiftDelay(o, level) <= gap)
  }

  /** No recorded timer started after t. */
  predicate StartedBy(s: PolicyState, t: real) {
    && (s.upshift.Some? ==> s.upshift.value.startedAt <= t)
    && (forall i | 0 <= i < |s.downshifts| :: s.downshifts[i].startedAt <= t)
  }

  /** Fresh valid readings in one band, at least gap apart, none older than a running timer. */
  predicate Steady(s: PolicyState, o: Options, level: Level, gap: real, rs: seq<Sample>) {
    && (forall i | 0 <= i < |rs| ::
          && LevelForPm25(rs[i].pm25, o) == level && rs[i].at >= 0.0 && rs[i].revision >= 0
          && (s.lastRevision.Some? ==> rs[i].revision > s.lastRevision.value))
    && (forall i, j | 0 <= i < j < |rs| :: rs[i].revision < rs[j].revision && rs[i].at + gap <= rs[j].at)
    && (rs != [] ==> StartedBy(s, rs[0].at))
  }

  /** At rest: nothing in flight and no failure to retry. */
  predicate Clear(s: PolicyState) {
    Inv(s) && s.pendingTarget.None? && s.failedLevel.None? && s.confirmedLevel.Some?
  }

  predicate Settled(s: PolicyState, level: Level) {
    Inv(s) && s.pendingTarget.None? && s.confirmedLevel == Some(level)
  }

  /** Every timer that the level needs is running. */
  predicate Primed(s: PolicyState, level: Level) {
    && Clear(s)
    && (level < s.confirmedLevel.value ==> s.downshifts != [] && s.downshifts[0].level <= level)
    && (level > s.confirmedLevel.value ==> s.upshift.Some?)
  }

  predicate FreshFor(s: PolicyState, o: Options, level: Level, r: Sample) {
    && o.enabled && LevelForPm25(r.pm25, o) == level && r.at >= 0.0 && r.revision >= 0
    && (s.lastRevision.Some? ==> r.revision > s.lastRevision.value)
  }

  lemma RoundKeeps(s: PolicyState, o: Options, r: Sample)
    requires Inv(s) && s.pendingTarget.None?
    requires o.enabled && r.at >= 0.0 && r.revision >= 0
    requires s.lastRevision.Some? ==> r.revision > s.lastRevision.value
    ensures Inv(Round(s, o, r)) && Round(s, o, r).pendingTarget.None?
    ensures Round(s, o, r).lastRevision == Some(r.revision)
  {
    StepKeeps(s, o, Observe(Some(r.pm25), r.revision, r.at));
    var t := Sensed(s, o, r).state;
    EvaluationFrame(s.(lastRevision := Some(r.revision)), o, LevelForPm25(r.pm25, o), r.revision, r.at);
    if t.pendingTarget.Some? {
      StepKeeps(t, o, Acknowledge(t.pendingTarget.value));
      AcknowledgeKeeps(t, o, t.pendingTarget.value);
    }
  }

  /** What acknowledging a just emitted command leaves. */
  lemma EmitThenAcknowledge(s: PolicyState, o: Options, level: Level)
    requires s.deferred.None?
    requires s.confirmedLevel.Some? && level < s.confirmedLevel.value ==> Contiguous(s.downshifts, s.confirmedLevel.value)
    ensures var e := Emit(s, o, level).state;
      e.pendingTarget == Some(ModeForLevel(level)) &&
      var t := Step(e, o, Acknowledge(ModeForLevel(level))).state;
      && t.confirmedLevel == Some(level) && t.pendingTarget.None? && t.failedLevel.None? && t.upshift.None?
      && t.downshifts == e.downshifts
      && (s.confirmedLevel.Some? && level < s.confirmedLevel.value ==>
            e.downshifts == if s.confirmedLevel.value - |s.downshifts| <= level
                            then s.downshifts[..level - (s.confirmedLevel.value - |s.downshifts|)] else [])
      && (!(s.confirmedLevel.Some? && level < s.confirmedLevel.value) ==> e.downshifts == [])
  {
    ModeAndLevelAreInverse(level, Auto);
    var e := Emit(s, o, level).state;
    if s.confirmedLevel.Some? && level < s.confirmedLevel.value {
      BelowIsPrefix(s.downshifts, s.confirmedLevel.value, level);
      if e.downshifts != [] {
        BelowIsPrefix(e.downshifts, level, level);
      }
    }
  }

  // ---- one round ----

  lemma SettledStays(s: PolicyState, o: Options, level: Level, r: Sample)
    requires Settled(s, level) && FreshFor(s, o, level, r)
    ensures Settled(Round(s, o, r), level) && Sensed(s, o, r).target.None?
  {
    RoundKeeps(s, o, r);
  }

  /** What a reading below the confirmed level leads to, command and acknowledgement included. */
  function Descended(s: PolicyState, o: Options, level: Level, r: Sample): PolicyState
    requires s.confirmedLevel.Some? && level <= s.confirmedLevel.value
  {
    var ds := Crossings(s.downshifts, level, s.confirmedLevel.value, r.revision, r.at);
    var t := s.(lastRevision := Some(r.revision), upshift := None, downshifts := ds);
    match LowestMatured(ds, o, r.revision, r.at)
    case None => t
    case Some(m) => Step(Emit(t, o, m).state, o, Acknowledge(ModeForLevel(m))).state
  }

  lemma DescentRound(s: PolicyState, o: Options, level: Level, r: Sample)
    requires Clear(s) && FreshFor(s, o, level, r) && level < s.confirmedLevel.value
    ensures Round(s, o, r) == Descended(s, o, level, r)
  {
  }

  lemma DescentSettles(s: PolicyState, o: Options, level: Level, r: Sample)
    requires Clear(s) && FreshFor(s, o, level, r) && level < s.confirmedLevel.value
    requires Primed(s, level) && forall d | d in s.downshifts :: Matured(d, o, r.revision, r.at)
    ensures Settled(Round(s, o, r), level)
  {
    RoundKeeps(s, o, r);
    DescentRound(s, o, level, r);
    var confirmed := s.confirmedLevel.value;
    var ds := Crossings(s.downshifts, level, confirmed, r.revision, r.at);
    FindInContiguous(s.downshifts, confirmed, level);
    assert Matured(ds[0], o, r.revision, r.at);
    LowestMaturedIs(ds, o, r.revision, r.at);
    assert Contiguous(ds, confirmed);
    EmitThenAcknowledge(s.(lastRevision := Some(r.revision), upshift := None, downshifts := ds), o, level);
  }

  /** The dwells of a reading are contiguous, ascend from its level and began by now. */
  lemma CrossingsStarted(s: PolicyState, level: Level, r: Sample)
    requires Clear(s) && StartedBy(s, r.at) && level < s.confirmedLevel.value
    ensures var ds := Crossings(s.downshifts, level, s.confirmedLevel.value, r.revision, r.at);
      && Contiguous(ds, s.confirmedLevel.value) && |ds| == s.confirmedLevel.value - level && ds[0].level == level
      && forall i | 0 <= i < |ds| :: ds[i].startedAt <= r.at
  {
    var ds := Crossings(s.downshifts, level, s.confirmedLevel.value, r.revision, r.at);
    forall i | 0 <= i < |ds|
      ensures ds[i].startedAt <= r.at
    {
      assert ds[i] == Crossing(s.downshifts, level + i, r.revision, r.at);
    }
  }

  lemma RoundPrimesDown(s: PolicyState, o: Options, level: Level, r: Sample)
    requires Clear(s) && FreshFor(s, o, level, r) && StartedBy(s, r.at) && level < s.confirmedLevel.value
    ensures Primed(Round(s, o, r), level) || Settled(Round(s, o, r), level)
    ensures StartedBy(Round(s, o, r), r.at)
  {
    RoundKeeps(s, o, r);
    DescentRound(s, o, level, r);
    CrossingsStarted(s, level, r);
    var ds := Crossings(s.downshifts, level, s.confirmedLevel.value, r.revision, r.at);
    LowestMaturedIs(ds, o, r.revision, r.at);
    var m := LowestMatured(ds, o, r.revision, r.at);
    if m.Some? {
      EmitThenAcknowledge(s.(lastRevision := Some(r.revision), upshift := None, downshifts := ds), o, m.value);
    }
  }

  lemma RoundPrimesUp(s: PolicyState, o: Options, level: Level, r: Sample)
    requires Clear(s) && FreshFor(s, o, level, r) && StartedBy(s, r.at) && level > s.confirmedLevel.value
    ensures Primed(Round(s, o, r), level) || Settled(Round(s, o, r), level)
    ensures StartedBy(Round(s, o, r), r.at)
    ensures s.upshift.Some? && r.at >= UpshiftBoundary(s.upshift.value, o) ==> Settled(Round(s, o, r), level)
  {
    RoundKeeps(s, o, r);
    EmitThenAcknowledge(s.(lastRevision := Some(r.revision), downshifts := []), o, level);
  }

  /** From rest, one reading starts every timer its level needs, or settles. */
  lemma RoundPrimes(s: PolicyState, o: Options, level: Level, r: Sample)
    requires Clear(s) && FreshFor(s, o, level, r) && StartedBy(s, r.at)
    ensures Primed(Round(s, o, r), level) || Settled(Round(s, o, r), level)
    ensures StartedBy(Round(s, o, r), r.at)
  {
    RoundKeeps(s, o, r);
    if level < s.confirmedLevel.value {
      RoundPrimesDown(s, o, level, r);
    } else if level > s.confirmedLevel.value {
      RoundPrimesUp(s, o, level, r);
    }
  }

  /** Once every timer runs, a reading a full gap later settles. */
  lemma PrimedSettles(s: PolicyState, o: Options, level: Level, r: Sample, t: real, gap: real)
    requires Primed(s, level) && FreshFor(s, o, level, r)
    requires StartedBy(s, t) && Covers(o, gap) && gap >= 0.0 && t + gap <= r.at
    ensures Settled(Round(s, o, r), level)
  {
    RoundKeeps(s, o, r);
    if level < s.confirmedLevel.value {
      forall d | d in s.downshifts
        ensures Matured(d, o, r.revision, r.at)
      {
        assert DownshiftDelay(o, d.level) <= gap;
      }
      DescentSettles(s, o, level, r);
    } else if level > s.confirmedLevel.value {
      RoundPrimesUp(s, o, level, r);
    }
  }

  lemma RetryRound(s: PolicyState, o: Options, level: Level, r: Sample)
    requires Inv(s) && s.pendingTarget.None? && FreshFor(s, o, level, r) && StartedBy(s, r.at)
    requires s.failedLevel.Some? && s.confirmedLevel.Some? && level <= s.failedLevel.value < s.confirmedLevel.value
    ensures Clear(Round(s, o, r)) && StartedBy(Round(s, o, r), r.at)
  {
    RoundKeeps(s, o, r);
    var failed := s.failedLevel.value;
    BelowIsPrefix(s.downshifts, failed, failed);
    assert Below(s.downshifts, failed) == s.downshifts;
    ModeAndLevelAreInverse(failed, Auto);
  }

  lemma ClearedDescent(s: PolicyState, o: Options, level: Level, r: Sample)
    requires Inv(s) && s.pendingTarget.None? && FreshFor(s, o, level, r) && StartedBy(s, r.at)
    requires s.failedLevel.Some? && s.confirmedLevel.Some? && s.failedLevel.value < level < s.confirmedLevel.value
    ensures Clear(Round(s, o, r)) && StartedBy(Round(s, o, r), r.at)
  {
    RoundKeeps(s, o, r);
    var confirmed := s.confirmedLevel.value;
    var ds := Crossings(s.downshifts, level, confirmed, r.revision, r.at);
    var t := ClearFailure(s).(lastRevision := Some(r.revision), upshift := None, downshifts := ds);
    LowestMaturedIs(ds, o, r.revision, r.at);
    assert Contiguous(ds, confirmed);
  }

  lemma ClimbingRetry(s: PolicyState, o: Options, level: Level, r: Sample)
    requires Inv(s) && s.pendingTarget.None? && FreshFor(s, o, level, r) && StartedBy(s, r.at)
    requires s.failedLevel.Some? && s.confirmedLevel.Some? && s.failedLevel.value < s.confirmedLevel.value < level
    ensures Clear(Round(s, o, r)) && StartedBy(Round(s, o, r), r.at)
  {
    RoundKeeps(s, o, r);
    EmitThenAcknowledge(ClearFailure(s).(lastRevision := Some(r.revision), downshifts := []), o, level);
  }

  /** What follows an unknown level or a failed upshift takes effect at once. */
  lemma ImmediateRound(s: PolicyState, o: Options, level: Level, r: Sample)
    requires Inv(s) && s.pendingTarget.None? && FreshFor(s, o, level, r) && StartedBy(s, r.at)
    requires s.confirmedLevel.None? || (s.failedLevel.Some? && s.failedLevel.value > s.confirmedLevel.value)
    ensures Clear(Round(s, o, r)) && StartedBy(Round(s, o, r), r.at) && Settled(Round(s, o, r), level)
  {
    RoundKeeps(s, o, r);
    if s.confirmedLevel.None? || level != s.confirmedLevel.value {
      EmitThenAcknowledge(s.(lastRevision := Some(r.revision)), o, level);
    }
  }

  /** A failed command or an unknown level costs at most one reading. */
  lemma RoundClears(s: PolicyState, o: Options, level: Level, r: Sample)
    requires Inv(s) && s.pendingTarget.None? && FreshFor(s, o, level, r) && StartedBy(s, r.at)
    requires s.failedLevel.Some? || s.confirmedLevel.None?
    ensures Clear(Round(s, o, r)) && StartedBy(Round(s, o, r), r.at)
    ensures s.confirmedLevel.None? ==> Settled(Round(s, o, r), level)
  {
    if s.confirmedLevel.None? || s.failedLevel.value > s.confirmedLevel.value {
      ImmediateRound(s, o, level, r);
    } else if level <= s.failedLevel.value {
      RetryRound(s, o, level, r);
    } else if level < s.confirmedLevel.value {
      ClearedDescent(s, o, level, r);
    } else if level > s.confirmedLevel.value {
      ClimbingRetry(s, o, level, r);
    } else {
      RoundKeeps(s, o, r);
    }
  }

  // ---- several rounds ----

  /** How many readings steady air needs: one more when a failed command is outstanding. */
  function ReadingsNeeded(s: PolicyState): nat {
    if s.failedLevel.Some? then 3 else 2
  }

  lemma RoundsUnfold(s: PolicyState, o: Options, rs: seq<Sample>, k: nat)
    requires k < |rs|
    ensures Rounds(s, o, rs[..k + 1]) == Round(Rounds(s, o, rs[..k]), o, rs[k])
  {
    assert rs[..k + 1][..k] == rs[..k];
  }

  lemma {:induction false} RoundsKeep(s: PolicyState, o: Options, level: Level, gap: real, rs: seq<Sample>, k: nat)
    requires Inv(s) && s.pendingTarget.None? && o.enabled && Steady(s, o, level, gap, rs) && k <= |rs|
    ensures Inv(Rounds(s, o, rs[..k])) && Rounds(s, o, rs[..k]).pendingTarget.None?
    ensures k > 0 ==> Rounds(s, o, rs[..k]).lastRevision == Some(rs[k - 1].revision)
    ensures k == 0 ==> Rounds(s, o, rs[..k]) == s
    ensures k < |rs| ==> FreshFor(Rounds(s, o, rs[..k]), o, level, rs[k])
  {
    if k > 0 {
      RoundsKeep(s, o, level, gap, rs, k - 1);
      RoundsUnfold(s, o, rs, k - 1);
      RoundKeeps(Rounds(s, o, rs[..k - 1]), o, rs[k - 1]);
    }
  }

  /** Without a failed command two readings a full gap apart settle. */
  lemma TwoRoundsSettle(s: PolicyState, o: Options, level: Level, gap: real, r0: Sample, r1: Sample)
    requires Inv(s) && s.pendingTarget.None? && s.failedLevel.None?
    requires FreshFor(s, o, level, r0) && StartedBy(s, r0.at) && FreshFor(Round(s, o, r0), o, level, r1)
    requires Covers(o, gap) && gap >= 0.0 && r0.at + gap <= r1.at
    ensures Settled(Round(Round(s, o, r0), o, r1), level)
  {
    var s1 := Round(s, o, r0);
    if s.confirmedLevel.None? {
      RoundClears(s, o, level, r0);
    } else {
      RoundPrimes(s, o, level, r0);
    }
    if Settled(s1, level) {
      SettledStays(s1, o, level, r1);
    } else {
      PrimedSettles(s1, o, level, r1, r0.at, gap);
    }
  }

  /** Without a failure outstanding after k readings, two more settle. */
  lemma TwoMoreSettle(s: PolicyState, o: Options, level: Level, gap: real, rs: seq<Sample>, k: nat, t: PolicyState)
    requires Inv(s) && s.pendingTarget.None? && o.enabled && k + 2 <= |rs| && t == Rounds(s, o, rs[..k])
    requires Covers(o, gap) && gap >= 0.0 && Steady(s, o, level, gap, rs)
    requires t.failedLevel.None? && StartedBy(t, rs[k].at)
    ensures Settled(Rounds(s, o, rs[..k + 2]), level)
  {
    RoundsKeep(s, o, level, gap, rs, k);
    RoundsUnfold(s, o, rs, k);
    RoundsKeep(s, o, level, gap, rs, k + 1);
    RoundsUnfold(s, o, rs, k + 1);
    TwoRoundsSettle(t, o, level, gap, rs[k], rs[k + 1]);
  }

  /** Before the last two readings that are needed, no failure is left outstanding. */
  lemma FailureClears(s: PolicyState, o: Options, level: Level, gap: real, rs: seq<Sample>, k: nat)
    requires Inv(s) && s.pendingTarget.None? && o.enabled && k == ReadingsNeeded(s) - 2 < |rs|
    requires gap >= 0.0 && Steady(s, o, level, gap, rs)
    ensures Rounds(s, o, rs[..k]).failedLevel.None? && StartedBy(Rounds(s, o, rs[..k]), rs[k].at)
  {
    if k > 0 {
      RoundsKeep(s, o, level, gap, rs, 0);
      RoundsUnfold(s, o, rs, 0);
      RoundClears(s, o, level, rs[0]);
    }
  }

  lemma SettlesWhenNeeded(s: PolicyState, o: Options, level: Level, gap: real, rs: seq<Sample>, k: nat)
    requires Inv(s) && s.pendingTarget.None? && o.enabled && k + 2 == ReadingsNeeded(s) <= |rs|
    requires Covers(o, gap) && gap >= 0.0 && Steady(s, o, level, gap, rs)
    ensures Settled(Rounds(s, o, rs[..k + 2]), level)
  {
    FailureClears(s, o, level, gap, rs, k);
    TwoMoreSettle(s, o, level, gap, rs, k, Rounds(s, o, rs[..k]));
  }

  lemma SteadyRound(s: PolicyState, o: Options, level: Level, gap: real, rs: seq<Sample>, k: nat)
    requires Inv(s) && s.pendingTarget.None? && o.enabled && Steady(s, o, level, gap, rs) && k < |rs|
    requires Settled(Rounds(s, o, rs[..k]), level)
    ensures Settled(Rounds(s, o, rs[..k + 1]), level)
    ensures Sensed(Rounds(s, o, rs[..k]), o, rs[k]).target.None?
  {
    var t := Rounds(s, o, rs[..k]);
    RoundsKeep(s, o, level, gap, rs, k);
    RoundsUnfold(s, o, rs, k);
    SettledStays(t, o, level, rs[k]);
  }

  lemma {:induction false} StaysSettled(s: PolicyState, o: Options, level: Level, gap: real, rs: seq<Sample>, k: nat)
    requires Inv(s) && s.pendingTarget.None? && o.enabled
    requires Covers(o, gap) && gap >= 0.0 && Steady(s, o, level, gap, rs)
    requires ReadingsNeeded(s) <= k <= |rs|
    ensures Settled(Rounds(s, o, rs[..k]), level)
  {
    if k == ReadingsNeeded(s) {
      SettlesWhenNeeded(s, o, level, gap, rs, k - 2);
    } else {
      StaysSettled(s, o, level, gap, rs, k - 1);
      SteadyRound(s, o, level, gap, rs, k - 1);
    }
  }

  /** From any state that satisfies the invariant with no command pending, readings
    * in one band spaced by at least the largest delay confirm that band after two
    * readings, or three when a failed command is outstanding, and no command is
    * emitted from then on. */
  lemma SteadyAirSettles(s: PolicyState, o: Options, level: Level, gap: real, rs: seq<Sample>, k: nat)
    requires Inv(s) && s.pendingTarget.None? && o.enabled
    requires Covers(o, gap) && gap >= 0.0 && Steady(s, o, level, gap, rs)
    requires ReadingsNeeded(s) <= k <= |rs|
    ensures Settled(Rounds(s, o, rs[..k]), level)
    ensures k < |rs| ==> Sensed(Rounds(s, o, rs[..k]), o, rs[k]).target.None?
  {
    StaysSettled(s, o, level, gap, rs, k);
    if k < |rs| {
      SteadyRound(s, o, level, gap, rs, k);
    }
  }

  // ---- reachable states ----

  /** No reading of the run is later than t. */
  predicate ReadBy(ops: seq<Op>, t: real) {
    forall k | 0 <= k < |ops| && ops[k].Observe? :: ops[k].at <= t
  }

  predicate RecordedBy(s: PolicyState, t: real) {
    StartedBy(s, t) && (s.deferred.Some? ==> s.deferred.value.observedAt <= t)
  }

  lemma {:induction false} BelowStarts(ds: seq<Dwell>, level: int, t: real)
    requires forall d | d in ds :: d.startedAt <= t
    ensures forall d | d in Below(ds, level) :: d.startedAt <= t
    ensures forall d | d in AtOrAbove(ds, level) :: d.startedAt <= t
  {
    if ds != [] {
      BelowStarts(ds[1..], level, t);
    }
  }

  lemma EmitRecords(s: PolicyState, o: Options, level: Level, t: real)
    requires RecordedBy(s, t)
    ensures RecordedBy(Emit(s, o, level).state, t)
  {
    BelowStarts(s.downshifts, level, t);
  }

  lemma HysteresisRecords(s: PolicyState, o: Options, confirmed: Level, desired: Level, revision: int, at: real, t: real)
    requires RecordedBy(s, t) && at <= t
    ensures RecordedBy(Hysteresis(s, o, confirmed, desired, revision, at).state, t)
  {
    if desired > confirmed {
      EmitRecords(s.(downshifts := []), o, desired, t);
    } else if desired < confirmed {
      var ds := Crossings(s.downshifts, desired, confirmed, revision, at);
      var s' := s.(upshift := None, downshifts := ds);
      assert forall d | d in ds :: d.startedAt <= t;
      var m := LowestMatured(ds, o, revision, at);
      if m.Some? {
        EmitRecords(s', o, m.value, t);
      }
    }
  }

  lemma EvaluationRecords(s: PolicyState, o: Options, desired: Level, revision: int, at: real, t: real)
    requires RecordedBy(s, t) && at <= t
    ensures RecordedBy(EvaluateAccepted(s, o, desired, revision, at).state, t)
  {
    EmitRecords(s, o, desired, t);
    if s.confirmedLevel.Some? {
      if s.failedLevel.Some? {
        EmitRecords(s, o, s.failedLevel.value, t);
      }
      HysteresisRecords(s, o, s.confirmedLevel.value, desired, revision, at, t);
      HysteresisRecords(ClearFailure(s), o, s.confirmedLevel.value, desired, revision, at, t);
    }
  }

  lemma StepRecords(s: PolicyState, o: Options, op: Op, t: real)
    requires RecordedBy(s, t) && (op.Observe? ==> op.at <= t)
    ensures RecordedBy(Step(s, o, op).state, t)
  {
    match op
    case Observe(pm25, revision, at) =>
      if Accepts(s, o, pm25, revision, at) {
        var desired := LevelForPm25(pm25.value, o);
        EvaluationRecords(s.(lastRevision := Some(revision)), o, desired, revision, at, t);
        BelowStarts(s.downshifts, desired, t);
      }
    case Acknowledge(mode) =>
      if s.pendingTarget == Some(mode) && LevelForMode(mode).Some? {
        BelowStarts(s.downshifts, LevelForMode(mode).value, t);
        if s.deferred.Some? {
          var d := s.deferred.value;
          EvaluationRecords(ConfirmPending(s, mode).value.(deferred := None), o,
                            LevelForPm25(d.pm25, o), d.revision, d.observedAt, t);
        }
      }
    case Boundary(now) =>
    case Fail =>
    case Forget =>
    case Rebased(mode) =>
  }

  lemma {:induction false} RunRecords(mode: Option<FanMode>, o: Options, ops: seq<Op>, t: real)
    requires ReadBy(ops, t)
    ensures RecordedBy(Run(InitialState(mode), o, ops), t)
  {
    if ops != [] {
      RunRecords(mode, o, ops[..|ops| - 1], t);
      StepRecords(Run(InitialState(mode), o, ops[..|ops| - 1]), o, ops[|ops| - 1], t);
    }
  }

  /** The same for every reachable state, failures included, on a clock that never runs backwards. */
  lemma ReachableStatesSettle(mode: Option<FanMode>, o: Options, ops: seq<Op>, level: Level, gap: real,
                              rs: seq<Sample>, k: nat)
    requires var s := Run(InitialState(mode), o, ops);
      && s.pendingTarget.None? && o.enabled && Covers(o, gap) && gap >= 0.0
      && (forall i | 0 <= i < |rs| ::
            && LevelForPm25(rs[i].pm25, o) == level && rs[i].at >= 0.0 && rs[i].revision >= 0
            && (s.lastRevision.Some? ==> rs[i].revision > s.lastRevision.value))
      && (forall i, j | 0 <= i < j < |rs| :: rs[i].revision < rs[j].revision && rs[i].at + gap <= rs[j].at)
      && 3 <= k <= |rs|
    requires ReadBy(ops, rs[0].at)
    ensures var t := Rounds(Run(InitialState(mode), o, ops), o, rs[..k]);
      && t.confirmedLevel == Some(level) && t.pendingTarget.None?
      && (k < |rs| ==> Sensed(t, o, rs[k]).target.None?)
  {
    var s := Run(InitialState(mode), o, ops);
    ReachableStatesSatisfyInv(mode, o, ops);
    RunRecords(mode, o, ops, rs[0].at);
    SteadyAirSettles(s, o, level, gap, rs, k);
  }
}
