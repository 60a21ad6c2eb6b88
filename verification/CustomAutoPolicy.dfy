/** The synchronous hysteresis policy of Custom Auto: five fan levels, four
  * independently timed downward dwells, a two-reading upward confirmation, one
  * command in flight, one deferred reading and a failed-command marker.
  *
  * Profile validation fixes the mode order, so the modes are a constant here.
  */
module CustomAutoPolicy {
  import opened Models

  type Level = x: int | 1 <= x <= 5 witness 1
  type LowerLevel = x: int | 1 <= x <= 4 witness 1
  type Pm25 = x: int | 0 <= x <= 999

  const MODES: seq<FanMode> := [Sleep, Low, Medium, High, Turbo]

  datatype RawOptions = Options(
    enabled: bool, boundaries: seq<Pm25>, upshiftSeconds: nat, downshiftMinutes: seq<nat>)
  {
    predicate Valid() {
      && |boundaries| == 4
      && boundaries[0] < boundaries[1] < boundaries[2] < boundaries[3]
      && |downshiftMinutes| == 4
    }
  }

  /** Options as option and profile parsing leave them. */
  type Options = o: RawOptions | o.Valid() witness Options(true, [3, 5, 9, 15], 3, [7, 5, 5, 5])

  function UpshiftDelay(o: Options): (d: real) {
    o.upshiftSeconds as real
  }

  function DownshiftDelay(o: Options, level: LowerLevel): (d: real) {
    o.downshiftMinutes[level - 1] as real * 60.0
  }

  datatype Upshift = Upshift(revision: int, startedAt: real, sampleRequested: bool)

  datatype Dwell = Dwell(level: LowerLevel, revision: int, startedAt: real, sampleRequested: bool)

  datatype Deferred = Deferred(pm25: Pm25, revision: int, observedAt: real)

  datatype PolicyState = PolicyState(
    confirmedLevel: Option<Level>,
    lastRevision: Option<int>,
    upshift: Option<Upshift>,
    downshifts: seq<Dwell>,
    pendingTarget: Option<FanMode>,
    deferred: Option<Deferred>,
    failedRevision: Option<int>,
    failedLevel: Option<Level>)

  datatype PolicyResult = PolicyResult(
    state: PolicyState, target: Option<FanMode>, requestSample: bool, nextBoundaryAt: Option<real>)

  datatype ConfirmError = TargetMismatch | UncontrolledMode

  // ---- levels ----

  function ModeForLevel(level: Level): FanMode {
    MODES[level - 1]
  }

  function LevelForMode(mode: FanMode): Option<Level> {
    match mode
    case Auto => None
    case Sleep => Some(1)
    case Low => Some(2)
    case Medium => Some(3)
    case High => Some(4)
    case Turbo => Some(5)
  }

  function LevelForModeOption(mode: Option<FanMode>): Option<Level> {
    if mode.Some? then LevelForMode(mode.value) else None
  }

  /** Python's bisect_left: the number of leading elements below x. */
  function BisectLeft(a: seq<int>, x: int): (n: nat)
    ensures n <= |a|
  {
    if a == [] || x <= a[0] then 0 else 1 + BisectLeft(a[1..], x)
  }

  function LevelForPm25(pm25: Pm25, o: Options): Level {
    BisectLeft(o.boundaries, pm25) + 1
  }

  lemma {:induction false} BisectLeftSplits(a: seq<int>, x: int)
    requires forall i, j | 0 <= i < j < |a| :: a[i] < a[j]
    ensures forall i | 0 <= i < |a| :: i < BisectLeft(a, x) <==> a[i] < x
  {
    if a != [] && a[0] < x {
      BisectLeftSplits(a[1..], x);
      assert forall i | 0 < i < |a| :: a[i] == a[1..][i - 1];
    }
  }

  /** Exactly the boundaries under its level lie below a reading; a reading equal
    * to a boundary stays in the lower band. */
  lemma LevelIsTheBand(pm25: Pm25, o: Options)
    ensures forall i | 0 <= i < 4 :: o.boundaries[i] < pm25 <==> i + 1 < LevelForPm25(pm25, o)
  {
    BisectLeftSplits(o.boundaries, pm25);
  }

  lemma ModeAndLevelAreInverse(level: Level, mode: FanMode)
    ensures LevelForMode(ModeForLevel(level)) == Some(level)
    ensures ModeForLevel(1) == Sleep && ModeForLevel(2) == Low && ModeForLevel(3) == Medium && ModeForLevel(4) == High
    ensures ModeForLevel(5) == Turbo
    ensures LevelForMode(mode).None? <==> mode == Auto
    ensures mode != Auto ==> LevelForMode(mode).Some? && ModeForLevel(LevelForMode(mode).value) == mode
  {
    assert level == 1 || level == 2 || level == 3 || level == 4 || level == 5;
  }

  // ---- state constructors ----

  function InitialState(mode: Option<FanMode>): PolicyState {
    PolicyState(LevelForModeOption(mode), None, None, [], None, None, None, None)
  }

  function InvalidateOwnership(s: PolicyState): PolicyState {
    InitialState(None).(lastRevision := s.lastRevision)
  }

  function Rebase(s: PolicyState, mode: Option<FanMode>): PolicyState {
    InitialState(mode).(lastRevision := s.lastRevision)
  }

  // ---- dwells ----

  function Below(ds: seq<Dwell>, level: int): seq<Dwell> {
    if ds == [] then []
    else if ds[0].level < level then [ds[0]] + Below(ds[1..], level)
    else Below(ds[1..], level)
  }

  function AtOrAbove(ds: seq<Dwell>, level: int): seq<Dwell> {
    if ds == [] then []
    else if level <= ds[0].level then [ds[0]] + AtOrAbove(ds[1..], level)
    else AtOrAbove(ds[1..], level)
  }

  /** Lookup by level in the dictionary built from the dwells: the last entry wins. */
  function FindDwell(ds: seq<Dwell>, level: int): (r: Option<Dwell>)
    ensures r.Some? ==> r.value in ds && r.value.level == level
  {
    if ds == [] then None
    else if ds[|ds| - 1].level == level then Some(ds[|ds| - 1])
    else FindDwell(ds[..|ds| - 1], level)
  }

  function Crossing(ds: seq<Dwell>, level: LowerLevel, revision: int, at: real): (d: Dwell)
    ensures d.level == level && (d in ds || d == Dwell(level, revision, at, false))
  {
    FindDwell(ds, level).GetOr(Dwell(level, revision, at, false))
  }

  /** One dwell for each level from desired up to, but excluding, confirmed. */
  function Crossings(ds: seq<Dwell>, desired: Level, confirmed: Level, revision: int, at: real): (r: seq<Dwell>)
    requires desired <= confirmed
    ensures |r| == confirmed - desired
    ensures forall i | 0 <= i < |r| :: r[i] == Crossing(ds, desired + i, revision, at)
  {
    seq(confirmed - desired, i requires 0 <= i < confirmed - desired => Crossing(ds, desired + i, revision, at))
  }

  predicate Matured(d: Dwell, o: Options, revision: int, at: real) {
    revision > d.revision && at >= d.startedAt + DownshiftDelay(o, d.level)
  }

  function LowestMatured(ds: seq<Dwell>, o: Options, revision: int, at: real): Option<LowerLevel> {
    if ds == [] then None
    else
      var rest := LowestMatured(ds[1..], o, revision, at);
      if Matured(ds[0], o, revision, at) && (rest.None? || ds[0].level <= rest.value) then Some(ds[0].level)
      else rest
  }

  // ---- boundaries ----

  function UpshiftBoundary(u: Upshift, o: Options): real {
    u.startedAt + UpshiftDelay(o)
  }

  function DwellBoundary(d: Dwell, o: Options): real {
    d.startedAt + DownshiftDelay(o, d.level)
  }

  function DwellBoundaries(ds: seq<Dwell>, o: Options): seq<real> {
    if ds == [] then []
    else (if ds[0].sampleRequested then [] else [DwellBoundary(ds[0], o)]) + DwellBoundaries(ds[1..], o)
  }

  function Boundaries(s: PolicyState, o: Options): seq<real> {
    (if s.upshift.Some? && !s.upshift.value.sampleRequested then [UpshiftBoundary(s.upshift.value, o)] else [])
    + DwellBoundaries(s.downshifts, o)
  }

  function MinOf(xs: seq<real>): (r: Option<real>)
    ensures r.None? <==> xs == []
    ensures r.Some? ==> r.value in xs && forall x | x in xs :: r.value <= x
  {
    if xs == [] then None
    else
      var rest := MinOf(xs[1..]);
      assert xs == [xs[0]] + xs[1..];
      if rest.None? || xs[0] <= rest.value then Some(xs[0]) else rest
  }

  function NextBoundary(s: PolicyState, o: Options): Option<real> {
    MinOf(Boundaries(s, o))
  }

  function Outcome(s: PolicyState, o: Options, target: Option<FanMode>, requestSample: bool): PolicyResult {
    PolicyResult(s, target, requestSample, NextBoundary(s, o))
  }

  function Quiet(s: PolicyState, o: Options): PolicyResult {
    Outcome(s, o, None, false)
  }

  predicate UpshiftDue(u: Upshift, o: Options, now: real) {
    !u.sampleRequested && now >= UpshiftBoundary(u, o)
  }

  predicate DwellDue(d: Dwell, o: Options, now: real) {
    !d.sampleRequested && now >= DwellBoundary(d, o)
  }

  function MarkUpshift(u: Upshift, o: Options, now: real): Upshift {
    if UpshiftDue(u, o, now) then u.(sampleRequested := true) else u
  }

  function MarkDwell(d: Dwell, o: Options, now: real): Dwell {
    if DwellDue(d, o, now) then d.(sampleRequested := true) else d
  }

  function MarkDwells(ds: seq<Dwell>, o: Options, now: real): seq<Dwell> {
    seq(|ds|, i requires 0 <= i < |ds| => MarkDwell(ds[i], o, now))
  }

  predicate AnyDue(s: PolicyState, o: Options, now: real) {
    || (s.upshift.Some? && UpshiftDue(s.upshift.value, o, now))
    || (exists i :: 0 <= i < |s.downshifts| && DwellDue(s.downshifts[i], o, now))
  }

  function EvaluateBoundary(s: PolicyState, o: Options, now: real): PolicyResult {
    if !o.enabled || now < 0.0 then Quiet(s, o)
    else
      var marked := s.(
        upshift := if s.upshift.Some? then Some(MarkUpshift(s.upshift.value, o, now)) else None,
        downshifts := MarkDwells(s.downshifts, o, now));
      Outcome(marked, o, None, AnyDue(s, o, now))
  }

  // ---- observations ----

  /** Emits one command and keeps only the dwells that lie below its target. */
  function Emit(s: PolicyState, o: Options, level: Level): PolicyResult {
    var remaining :=
      if s.confirmedLevel.Some? && level < s.confirmedLevel.value then Below(s.downshifts, level) else [];
    var updated := s.(upshift := None, downshifts := remaining, pendingTarget := Some(ModeForLevel(level)));
    Outcome(updated, o, Some(ModeForLevel(level)), false)
  }

  function ClearFailure(s: PolicyState): PolicyState {
    s.(failedRevision := None, failedLevel := None)
  }

  /** The ordinary path, once no failed command needs a retry. */
  function Hysteresis(s: PolicyState, o: Options, confirmed: Level, desired: Level, revision: int, at: real): PolicyResult {
    if desired > confirmed then
      var s := s.(downshifts := []);
      if UpshiftDelay(o) == 0.0 then Emit(s, o, desired)
      else if s.upshift.None? then Quiet(s.(upshift := Some(Upshift(revision, at, false))), o)
      else if at >= UpshiftBoundary(s.upshift.value, o) then Emit(s, o, desired)
      else Quiet(s, o)
    else
      var s := s.(upshift := None);
      if desired == confirmed then Quiet(s.(downshifts := []), o)
      else
        var ds := Crossings(s.downshifts, desired, confirmed, revision, at);
        var matured := LowestMatured(ds, o, revision, at);
        if matured.Some? then Emit(s.(downshifts := ds), o, matured.value)
        else Quiet(s.(downshifts := ds), o)
  }

  function EvaluateAccepted(s: PolicyState, o: Options, desired: Level, revision: int, at: real): PolicyResult {
    if s.confirmedLevel.None? then Emit(s, o, desired)
    else
      var confirmed := s.confirmedLevel.value;
      if s.failedRevision.None? then Hysteresis(s, o, confirmed, desired, revision, at)
      else if s.failedLevel.Some? && s.failedLevel.value < confirmed then
        if desired <= s.failedLevel.value then Emit(s, o, s.failedLevel.value)
        else Hysteresis(ClearFailure(s), o, confirmed, desired, revision, at)
      else if desired != confirmed then Emit(s, o, desired)
      else Quiet(ClearFailure(s).(upshift := None, downshifts := []), o)
  }

  /** Whether an observation is a new, valid, finite reading. */
  predicate Accepts(s: PolicyState, o: Options, pm25: Option<int>, revision: int, at: real) {
    && o.enabled
    && pm25.Some? && 0 <= pm25.value <= 999
    && revision >= 0
    && (s.lastRevision.Some? ==> revision > s.lastRevision.value)
    && at >= 0.0
  }

  function EvaluateObservation(s: PolicyState, o: Options, pm25: Option<int>, revision: int, at: real): PolicyResult {
    if !Accepts(s, o, pm25, revision, at) then Quiet(s, o)
    else
      var desired := LevelForPm25(pm25.value, o);
      var s := s.(lastRevision := Some(revision));
      if s.pendingTarget.Some? then
        Quiet(s.(downshifts := AtOrAbove(s.downshifts, desired),
                 deferred := Some(Deferred(pm25.value, revision, at))), o)
      else EvaluateAccepted(s, o, desired, revision, at)
  }

  // ---- command completion ----

  function ConfirmPending(s: PolicyState, mode: FanMode): Result<PolicyState, ConfirmError> {
    if s.pendingTarget != Some(mode) then Err(TargetMismatch)
    else
      var level := LevelForMode(mode);
      if level.None? then Err(UncontrolledMode)
      else Ok(ClearFailure(s).(confirmedLevel := level, pendingTarget := None,
                               downshifts := Below(s.downshifts, level.value)))
  }

  function ReconcileDeferred(s: PolicyState, o: Options): PolicyResult {
    var idle := s.(deferred := None);
    if s.deferred.None? then Quiet(idle, o)
    else
      var d := s.deferred.value;
      EvaluateAccepted(idle, o, LevelForPm25(d.pm25, o), d.revision, d.observedAt)
  }

  function MarkFailed(s: PolicyState): PolicyState {
    if s.pendingTarget.None? then s
    else s.(pendingTarget := None, deferred := None,
            failedRevision := s.lastRevision, failedLevel := LevelForModeOption(s.pendingTarget))
  }

  // ---- runs ----

  /** What can happen to the policy. An acknowledgement is the confirmation of
    * the pending target together with the deferred reading it releases; a
    * rejected confirmation changes nothing. */
  datatype Op =
    | Observe(pm25: Option<int>, revision: int, at: real)
    | Boundary(now: real)
    | Acknowledge(mode: FanMode)
    | Fail
    | Forget
    | Rebased(mode_: Option<FanMode>)

  function Step(s: PolicyState, o: Options, op: Op): PolicyResult {
    match op
    case Observe(pm25, revision, at) => EvaluateObservation(s, o, pm25, revision, at)
    case Boundary(now) => EvaluateBoundary(s, o, now)
    case Acknowledge(mode) =>
      var c := ConfirmPending(s, mode);
      if c.Ok? then ReconcileDeferred(c.value, o) else Quiet(s, o)
    case Fail => Quiet(MarkFailed(s), o)
    case Forget => Quiet(InvalidateOwnership(s), o)
    case Rebased(mode) => Quiet(Rebase(s, mode), o)
  }

  function Run(s: PolicyState, o: Options, ops: seq<Op>): PolicyState {
    if ops == [] then s else Step(Run(s, o, ops[..|ops| - 1]), o, ops[|ops| - 1]).state
  }

  // ---- the loops of evaluate_boundary and _next_boundary ----

  lemma DwellBoundariesAppend(ds: seq<Dwell>, d: Dwell, o: Options)
    ensures DwellBoundaries(ds + [d], o)
         == DwellBoundaries(ds, o) + if d.sampleRequested then [] else [DwellBoundary(d, o)]
  {
    if ds == [] {
      assert [d][1..] == [];
    } else {
      assert (ds + [d])[1..] == ds[1..] + [d];
      DwellBoundariesAppend(ds[1..], d, o);
    }
  }

  /** Collects the boundaries of the unrequested timers and takes their minimum. */
  method ComputeNextBoundary(s: PolicyState, o: Options) returns (next: Option<real>)
    ensures next == NextBoundary(s, o)
  {
    var boundaries: seq<real> := [];
    if s.upshift.Some? && !s.upshift.value.sampleRequested {
      boundaries := boundaries + [s.upshift.value.startedAt + UpshiftDelay(o)];
    }
    ghost var first := boundaries;
    for i := 0 to |s.downshifts|
      invariant boundaries == first + DwellBoundaries(s.downshifts[..i], o)
    {
      var dwell := s.downshifts[i];
      assert s.downshifts[..i + 1] == s.downshifts[..i] + [dwell];
      DwellBoundariesAppend(s.downshifts[..i], dwell, o);
      if !dwell.sampleRequested {
        boundaries := boundaries + [DwellBoundary(dwell, o)];
      }
    }
    assert s.downshifts[..|s.downshifts|] == s.downshifts;
    next := MinOf(boundaries);
  }

  /** Marks mature timers and requests at most one sample, never a command. */
  method FireBoundary(s: PolicyState, o: Options, now: real) returns (r: PolicyResult)
    ensures r == EvaluateBoundary(s, o, now)
  {
    var next := ComputeNextBoundary(s, o);
    if !o.enabled || now < 0.0 {
      return PolicyResult(s, None, false, next);
    }
    var requestSample := false;
    var upshift := s.upshift;
    if upshift.Some? && !upshift.value.sampleRequested && now >= UpshiftBoundary(upshift.value, o) {
      upshift := Some(upshift.value.(sampleRequested := true));
      requestSample := true;
    }
    var downshifts: seq<Dwell> := [];
    for i := 0 to |s.downshifts|
      invariant downshifts == MarkDwells(s.downshifts, o, now)[..i]
      invariant requestSample <==>
        || (s.upshift.Some? && UpshiftDue(s.upshift.value, o, now))
        || (exists k :: 0 <= k < i && DwellDue(s.downshifts[k], o, now))
    {
      var dwell := s.downshifts[i];
      assert MarkDwells(s.downshifts, o, now)[i] == MarkDwell(dwell, o, now);
      if !dwell.sampleRequested && now >= DwellBoundary(dwell, o) {
        dwell := dwell.(sampleRequested := true);
        requestSample := true;
      }
      downshifts := downshifts + [dwell];
    }
    assert downshifts == MarkDwells(s.downshifts, o, now);
    var updated := s.(upshift := upshift, downshifts := downshifts);
    next := ComputeNextBoundary(updated, o);
    r := PolicyResult(updated, None, requestSample, next);
  }
}
