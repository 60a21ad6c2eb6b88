/** What every reachable policy state satisfies, over all runs: readings, timers,
  * acknowledgements, failures and loss of ownership in any order. */
module CustomAutoInvariant {
  import opened Models
  import opened CustomAutoPolicy

  /** The level that the highest dwell lies directly below: the level on its way
    * to the hardware, else the level that failed to reach it, else the confirmed one. */
  function Ceiling(s: PolicyState): Option<Level> {
    if s.pendingTarget.Some? then LevelForMode(s.pendingTarget.value)
    else if s.failedLevel.Some? then s.failedLevel
    else s.confirmedLevel
  }

  /** The dwells ascend without a gap and end directly below top. */
  predicate Contiguous(ds: seq<Dwell>, top: int) {
    forall i | 0 <= i < |ds| :: ds[i].level == top - |ds| + i
  }

  predicate RevisionsBounded(s: PolicyState) {
    && (s.upshift.Some? ==> s.lastRevision.Some? && s.upshift.value.revision <= s.lastRevision.value)
    && (forall i | 0 <= i < |s.downshifts| ::
          s.lastRevision.Some? && s.downshifts[i].revision <= s.lastRevision.value)
    && (s.failedRevision.Some? ==> s.lastRevision.Some? && s.failedRevision.value <= s.lastRevision.value)
  }

  predicate Inv(s: PolicyState) {
    // Dwells are a contiguous ascending range below the confirmed level.
    && (s.downshifts != [] ==>
          && s.confirmedLevel.Some?
          && Ceiling(s).Some? && Ceiling(s).value <= s.confirmedLevel.value
          && Contiguous(s.downshifts, Ceiling(s).value))
    // A pending upshift excludes dwells, a pending target and a failure marker.
    && (s.upshift.Some? ==>
          s.confirmedLevel.Some? && s.downshifts == [] && s.pendingTarget.None? && s.failedRevision.None?)
    // A deferred reading implies a pending target and is the newest reading.
    && (s.deferred.Some? ==> s.pendingTarget.Some? && s.lastRevision == Some(s.deferred.value.revision))
    // A pending target is a controlled mode other than the confirmed one.
    && (s.pendingTarget.Some? ==>
          && s.lastRevision.Some?
          && LevelForMode(s.pendingTarget.value).Some?
          && LevelForMode(s.pendingTarget.value) != s.confirmedLevel)
    // The two halves of the failure marker come and go together.
    && (s.failedRevision.Some? <==> s.failedLevel.Some?)
    && (s.failedLevel.Some? ==> s.failedLevel != s.confirmedLevel)
    && RevisionsBounded(s)
  }

  // ---- what the dwell filters do to a contiguous range ----

  lemma {:induction false} BelowIsPrefix(ds: seq<Dwell>, top: int, level: int)
    requires Contiguous(ds, top)
    ensures var k := if level <= top - |ds| then 0 else if top <= level then |ds| else level - (top - |ds|);
      Below(ds, level) == ds[..k]
  {
    if ds == [] {
    } else {
      assert Contiguous(ds[1..], top);
      BelowIsPrefix(ds[1..], top, level);
      assert ds == [ds[0]] + ds[1..];
    }
  }

  lemma {:induction false} AtOrAboveIsSuffix(ds: seq<Dwell>, top: int, level: int)
    requires Contiguous(ds, top)
    ensures var k := if level <= top - |ds| then 0 else if top <= level then |ds| else level - (top - |ds|);
      AtOrAbove(ds, level) == ds[k..]
  {
    if ds == [] {
    } else {
      assert Contiguous(ds[1..], top);
      AtOrAboveIsSuffix(ds[1..], top, level);
      assert ds == [ds[0]] + ds[1..];
    }
  }

  lemma {:induction false} FindInContiguous(ds: seq<Dwell>, top: int, level: int)
    requires Contiguous(ds, top)
    ensures FindDwell(ds, level)
         == if top - |ds| <= level < top then Some(ds[level - (top - |ds|)]) else None
  {
    if ds == [] {
    } else {
      assert Contiguous(ds[..|ds| - 1], top - 1);
      FindInContiguous(ds[..|ds| - 1], top - 1, level);
    }
  }

  lemma {:induction false} LowestMaturedIs(ds: seq<Dwell>, o: Options, revision: int, at: real)
    ensures var m := LowestMatured(ds, o, revision, at);
      && (m.None? ==> forall d | d in ds :: !Matured(d, o, revision, at))
      && (m.Some? ==>
            && (exists d :: d in ds && d.level == m.value && Matured(d, o, revision, at))
            && (forall d | d in ds && Matured(d, o, revision, at) :: m.value <= d.level))
  {
    if ds != [] {
      LowestMaturedIs(ds[1..], o, revision, at);
      assert ds == [ds[0]] + ds[1..];
    }
  }

  // ---- each operation keeps the invariant ----

  lemma EmitKeeps(s: PolicyState, o: Options, level: Level)
    requires Inv(s.(downshifts := [])) && RevisionsBounded(s)
    requires s.pendingTarget.None? && s.deferred.None? && s.lastRevision.Some?
    requires s.confirmedLevel != Some(level)
    requires s.downshifts != [] && s.confirmedLevel.Some? && level < s.confirmedLevel.value ==>
      exists top :: Contiguous(s.downshifts, top) && level <= top
    ensures Inv(Emit(s, o, level).state)
  {
    ModeAndLevelAreInverse(level, ModeForLevel(level));
    if s.downshifts != [] && s.confirmedLevel.Some? && level < s.confirmedLevel.value {
      var top :| Contiguous(s.downshifts, top) && level <= top;
      BelowIsPrefix(s.downshifts, top, level);
    }
  }

  lemma HysteresisKeeps(s: PolicyState, o: Options, confirmed: Level, desired: Level, revision: int, at: real)
    requires Inv(s.(downshifts := [])) && s.confirmedLevel == Some(confirmed)
    requires RevisionsBounded(s)
    requires s.failedRevision.None? && s.pendingTarget.None? && s.deferred.None?
    requires s.lastRevision.Some? && revision <= s.lastRevision.value
    ensures Inv(Hysteresis(s, o, confirmed, desired, revision, at).state)
  {
    if desired > confirmed {
      var s := s.(downshifts := []);
      if UpshiftDelay(o) == 0.0 || (s.upshift.Some? && at >= UpshiftBoundary(s.upshift.value, o)) {
        EmitKeeps(s, o, desired);
      }
    } else if desired < confirmed {
      var ds := Crossings(s.downshifts, desired, confirmed, revision, at);
      var t := s.(upshift := None, downshifts := ds);
      assert Contiguous(ds, confirmed);
      assert RevisionsBounded(t);
      LowestMaturedIs(ds, o, revision, at);
      var matured := LowestMatured(ds, o, revision, at);
      if matured.Some? {
        EmitKeeps(t, o, matured.value);
      }
    }
  }

  lemma AcceptedKeeps(s: PolicyState, o: Options, desired: Level, revision: int, at: real)
    requires Inv(s) && s.pendingTarget.None?
    requires s.lastRevision.Some? && revision <= s.lastRevision.value
    ensures Inv(EvaluateAccepted(s, o, desired, revision, at).state)
  {
    if s.confirmedLevel.None? {
      EmitKeeps(s, o, desired);
    } else {
      var confirmed := s.confirmedLevel.value;
      if s.failedRevision.None? {
        HysteresisKeeps(s, o, confirmed, desired, revision, at);
      } else if s.failedLevel.value < confirmed {
        if desired <= s.failedLevel.value {
          EmitKeeps(s, o, s.failedLevel.value);
        } else {
          HysteresisKeeps(ClearFailure(s), o, confirmed, desired, revision, at);
        }
      } else if desired != confirmed {
        EmitKeeps(s, o, desired);
      }
    }
  }

  /** Evaluating a reading records no revision, confirms nothing and defers nothing. */
  lemma EvaluationFrame(s: PolicyState, o: Options, desired: Level, revision: int, at: real)
    ensures var t := EvaluateAccepted(s, o, desired, revision, at).state;
      t.lastRevision == s.lastRevision && t.deferred == s.deferred && t.confirmedLevel == s.confirmedLevel
  {
  }

  lemma ObservationKeeps(s: PolicyState, o: Options, pm25: Option<int>, revision: int, at: real)
    requires Inv(s)
    ensures Inv(EvaluateObservation(s, o, pm25, revision, at).state)
  {
    if Accepts(s, o, pm25, revision, at) {
      var t := s.(lastRevision := Some(revision));
      var desired := LevelForPm25(pm25.value, o);
      if s.pendingTarget.None? {
        AcceptedKeeps(t, o, desired, revision, at);
      } else if s.downshifts != [] {
        AtOrAboveIsSuffix(s.downshifts, Ceiling(s).value, desired);
      }
    }
  }

  lemma ConfirmationKeeps(s: PolicyState, mode: FanMode)
    requires Inv(s) && s.pendingTarget == Some(mode)
    ensures var c := ConfirmPending(s, mode);
      c.Ok? && c.value.pendingTarget.None? && c.value.deferred == s.deferred && Inv(c.value.(deferred := None))
  {
    var level := LevelForMode(mode).value;
    if s.downshifts != [] {
      BelowIsPrefix(s.downshifts, level, level);
    } else {
      assert Below(s.downshifts, level) == [];
    }
  }

  lemma AcknowledgeKeeps(s: PolicyState, o: Options, mode: FanMode)
    requires Inv(s)
    ensures s.pendingTarget == Some(mode) ==>
      var c := ConfirmPending(s, mode);
      c.Ok? && c.value.pendingTarget.None? && Inv(ReconcileDeferred(c.value, o).state)
    ensures Inv(Step(s, o, Acknowledge(mode)).state)
  {
    if s.pendingTarget == Some(mode) {
      ConfirmationKeeps(s, mode);
      var c := ConfirmPending(s, mode).value;
      if s.deferred.Some? {
        AcceptedKeeps(c.(deferred := None), o, LevelForPm25(s.deferred.value.pm25, o),
                      s.deferred.value.revision, s.deferred.value.observedAt);
      }
    }
  }

  lemma StepKeeps(s: PolicyState, o: Options, op: Op)
    requires Inv(s)
    ensures Inv(Step(s, o, op).state)
  {
    match op
    case Observe(pm25, revision, at) => ObservationKeeps(s, o, pm25, revision, at);
    case Boundary(now) =>
      var t := EvaluateBoundary(s, o, now).state;
      assert |t.downshifts| == |s.downshifts|;
    case Acknowledge(mode) => AcknowledgeKeeps(s, o, mode);
    case Fail =>
    case Forget =>
    case Rebased(mode) =>
  }

  /** Every state reached from a fresh policy satisfies the invariant, failures included. */
  lemma {:induction false} ReachableStatesSatisfyInv(mode: Option<FanMode>, o: Options, ops: seq<Op>)
    ensures Inv(Run(InitialState(mode), o, ops))
  {
    if ops != [] {
      ReachableStatesSatisfyInv(mode, o, ops[..|ops| - 1]);
      StepKeeps(Run(InitialState(mode), o, ops[..|ops| - 1]), o, ops[|ops| - 1]);
    }
  }
}
