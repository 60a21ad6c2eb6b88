/** Retries after a failed command: what they emit, and exactly when the readings still
  * support it. */
module CustomAutoRetry {
  import opened Models
  import opened CustomAutoPolicy
  import opened CustomAutoInvariant
  import opened CustomAutoHistory

  /** The level that a failed command leaves to be retried by a reading: a failed
    * downshift is repeated, a failed upshift follows the reading. */
  function RetriedLevel(confirmed: Level, failed: Level, desired: Level): Level {
    if failed < confirmed then failed else desired
  }

  lemma RetriesEmit(s: PolicyState, o: Options, op: Op)
    requires Inv(s) && RetryStep(s, o, op)
    ensures var level := RetriedLevel(s.confirmedLevel.value, s.failedLevel.value, LevelForPm25(op.pm25.value, o));
      Step(s, o, op).target == Some(ModeForLevel(level)) && level != s.confirmedLevel.value
  {
  }

  // ---- the emission that started it ----

  /** How many readings had been accepted when the latest command outside a retry was
    * emitted. */
  function Origin(s: PolicyState, o: Options, ops: seq<Op>): (e: nat)
    ensures e <= |Readings(s, o, ops)|
  {
    if ops == [] then 0
    else
      var before, op := ops[..|ops| - 1], ops[|ops| - 1];
      var d := Run(s, o, before);
      if Step(d, o, op).target.Some? && !RetryStep(d, o, op) then |Readings(s, o, ops)| else Origin(s, o, before)
  }

  /** The level of the command in flight or, once it has failed, to be retried. */
  function Outstanding(s: PolicyState): Option<Level> {
    if s.pendingTarget.Some? then LevelForMode(s.pendingTarget.value) else s.failedLevel
  }

  ghost predicate ClimbWarranted(o: Options, h: seq<Reading>, confirmed: Level) {
    exists i :: Spans(h, i, UpshiftDelay(o)) && AllAbove(h, i, confirmed)
  }

  /** The first e readings warranted the command, or a higher one that it replaced. */
  ghost predicate Grounds(o: Options, h: seq<Reading>, e: nat, confirmed: Level, level: Level) {
    && 0 < e <= |h|
    && if h[e - 1].level > confirmed then UpshiftDelay(o) > 0.0 ==> ClimbWarranted(o, h[..e], confirmed)
       else h[e - 1].level <= level < confirmed && DownshiftWarranted(o, h[..e], level)
  }

  ghost predicate Grounded(o: Options, h: seq<Reading>, e: nat, s: PolicyState) {
    Outstanding(s).Some? && s.confirmedLevel.Some? ==>
      Grounds(o, h, e, s.confirmedLevel.value, Outstanding(s).value)
  }

  /** Outside retries an upward command goes to the level of the newest reading. */
  lemma ClimbsAreLatest(s: PolicyState, o: Options, desired: Level, revision: int, at: real)
    requires Inv(s) && s.confirmedLevel.Some? && !Retries(s, desired)
    ensures var t := EvaluateAccepted(s, o, desired, revision, at);
      t.target.Some? ==>
        LevelForMode(t.target.value).Some?
        && (LevelForMode(t.target.value).value <= s.confirmedLevel.value || LevelForMode(t.target.value).value == desired)
  {
    ModeAndLevelAreInverse(desired, Auto);
    if desired < s.confirmedLevel.value {
      var ds := Crossings(s.downshifts, desired, s.confirmedLevel.value, revision, at);
      LowestMaturedIs(ds, o, revision, at);
      var m := LowestMatured(ds, o, revision, at);
      if m.Some? {
        ModeAndLevelAreInverse(m.value, Auto);
      }
    }
  }

  lemma AcknowledgedEvaluation(s: PolicyState, o: Options, op: Op)
    requires Inv(s) && op.Acknowledge? && Step(s, o, op).target.Some?
    ensures s.pendingTarget == Some(op.mode) && s.deferred.Some? && ConfirmPending(s, op.mode).Ok?
    ensures var d := s.deferred.value; var c := ConfirmPending(s, op.mode).value.(deferred := None);
      && Inv(c) && c.pendingTarget.None? && c.failedLevel.None? && c.confirmedLevel == LevelForMode(op.mode)
      && Step(s, o, op) == EvaluateAccepted(c, o, LevelForPm25(d.pm25, o), d.revision, d.observedAt)
  {
    AcknowledgeKeeps(s.(deferred := None), o, op.mode);
  }

  /** The evaluation behind an emitting operation: its idle state and its reading. */
  lemma EmissionIsLatest(s: PolicyState, o: Options, op: Op, h: seq<Reading>)
    requires Inv(s) && HistoryMatches(s, o, h)
    requires Step(s, o, op).target.Some? && !RetryStep(s, o, op) && HeldLevel(s, op).Some?
    ensures var h' := h + Accepted(s, o, op); var level := LevelForMode(Step(s, o, op).target.value);
      h' != [] && level.Some? && (level.value <= HeldLevel(s, op).value || level.value == h'[|h'| - 1].level)
  {
    if op.Observe? {
      ClimbsAreLatest(s.(lastRevision := Some(op.revision)), o, LevelForPm25(op.pm25.value, o), op.revision, op.at);
    } else {
      AcknowledgedEvaluation(s, o, op);
      var d := s.deferred.value;
      ClimbsAreLatest(ConfirmPending(s, op.mode).value.(deferred := None), o, LevelForPm25(d.pm25, o),
                      d.revision, d.observedAt);
      assert h + [] == h;
    }
  }

  lemma EvaluationLeavesTarget(s: PolicyState, o: Options, desired: Level, revision: int, at: real)
    ensures var t := EvaluateAccepted(s, o, desired, revision, at);
      t.target.Some? ==> t.state.pendingTarget == t.target
  {
  }

  lemma EmissionLeavesTarget(s: PolicyState, o: Options, op: Op)
    requires Inv(s) && Step(s, o, op).target.Some?
    ensures var t := Step(s, o, op);
      t.state.pendingTarget == t.target && t.state.confirmedLevel == HeldLevel(s, op)
      && LevelForMode(t.target.value).Some? && LevelForMode(t.target.value) != t.state.confirmedLevel
  {
    StepKeeps(s, o, op);
    if op.Observe? {
      var d := s.(lastRevision := Some(op.revision));
      EvaluationFrame(d, o, LevelForPm25(op.pm25.value, o), op.revision, op.at);
      EvaluationLeavesTarget(d, o, LevelForPm25(op.pm25.value, o), op.revision, op.at);
    } else {
      AcknowledgedEvaluation(s, o, op);
      var d := s.deferred.value;
      var c := ConfirmPending(s, op.mode).value.(deferred := None);
      EvaluationFrame(c, o, LevelForPm25(d.pm25, o), d.revision, d.observedAt);
      EvaluationLeavesTarget(c, o, LevelForPm25(d.pm25, o), d.revision, d.observedAt);
    }
  }

  lemma WarrantedGrounds(o: Options, h: seq<Reading>, confirmed: Level, target: FanMode)
    requires TargetWarranted(o, h, confirmed, target) && h != []
    requires LevelForMode(target).value != confirmed
    requires LevelForMode(target).value > confirmed ==> LevelForMode(target).value == h[|h| - 1].level
    ensures Grounds(o, h, |h|, confirmed, LevelForMode(target).value)
  {
    var level := LevelForMode(target).value;
    assert h[..|h|] == h;
    if level < confirmed {
      var i :| Spans(h, i, DownshiftDelay(o, level)) && AllAtMost(h, i, level);
      assert h[|h| - 1].level <= level;
    } else if UpshiftDelay(o) > 0.0 {
      assert UpshiftWarranted(o, h, confirmed, level);
    }
  }

  lemma EmissionIsGrounded(s: PolicyState, o: Options, op: Op, h: seq<Reading>)
    requires Inv(s) && HistoryMatches(s, o, h) && Justified(h, s)
    requires Step(s, o, op).target.Some? && !RetryStep(s, o, op)
    ensures var h' := h + Accepted(s, o, op); Grounded(o, h', |h'|, Step(s, o, op).state)
  {
    EmissionLeavesTarget(s, o, op);
    if HeldLevel(s, op).Some? {
      StepIsJustified(s, o, op, h);
      EmissionIsLatest(s, o, op, h);
      WarrantedGrounds(o, h + Accepted(s, o, op), HeldLevel(s, op).value, Step(s, o, op).target.value);
    }
  }

  lemma RetryStaysGrounded(s: PolicyState, o: Options, op: Op, h: seq<Reading>, e: nat)
    requires Inv(s) && RetryStep(s, o, op) && Grounded(o, h, e, s)
    ensures Grounded(o, h + Accepted(s, o, op), e, Step(s, o, op).state)
  {
    RetriesEmit(s, o, op);
    EmissionLeavesTarget(s, o, op);
    var confirmed, failed := s.confirmedLevel.value, s.failedLevel.value;
    ModeAndLevelAreInverse(RetriedLevel(confirmed, failed, LevelForPm25(op.pm25.value, o)), Auto);
    var h' := h + Accepted(s, o, op);
    assert Grounds(o, h, e, confirmed, failed);
    assert h'[..e] == h[..e];
  }

  predicate KeepsOutstanding(s: PolicyState, t: PolicyState) {
    Outstanding(t).None? || (Outstanding(t) == Outstanding(s) && t.confirmedLevel == s.confirmedLevel)
  }

  lemma QuietEvaluation(s: PolicyState, o: Options, desired: Level, revision: int, at: real)
    requires Inv(s) && s.pendingTarget.None?
    ensures var t := EvaluateAccepted(s, o, desired, revision, at);
      t.target.None? ==> Outstanding(t.state).None?
  {
  }

  lemma QuietObservation(s: PolicyState, o: Options, op: Op)
    requires Inv(s) && op.Observe? && Step(s, o, op).target.None?
    ensures KeepsOutstanding(s, Step(s, o, op).state)
  {
    if Evaluates(s, o, op) {
      QuietEvaluation(s.(lastRevision := Some(op.revision)), o, LevelForPm25(op.pm25.value, o), op.revision, op.at);
    }
  }

  lemma QuietAcknowledgement(s: PolicyState, o: Options, mode: FanMode)
    requires Inv(s) && Step(s, o, Acknowledge(mode)).target.None?
    ensures KeepsOutstanding(s, Step(s, o, Acknowledge(mode)).state)
  {
    if s.pendingTarget == Some(mode) && s.deferred.Some? {
      AcknowledgeKeeps(s.(deferred := None), o, mode);
      var d := s.deferred.value;
      QuietEvaluation(ConfirmPending(s, mode).value.(deferred := None), o, LevelForPm25(d.pm25, o),
                      d.revision, d.observedAt);
    }
  }

  /** An operation that emits nothing keeps the outstanding level or drops it. */
  lemma SilenceKeepsOutstanding(s: PolicyState, o: Options, op: Op)
    requires Inv(s) && Step(s, o, op).target.None?
    ensures KeepsOutstanding(s, Step(s, o, op).state)
  {
    if op.Observe? {
      QuietObservation(s, o, op);
    } else if op.Acknowledge? {
      QuietAcknowledgement(s, o, op.mode);
    }
  }

  /** The latest command of a run. */
  function LastCommand(s: PolicyState, o: Options, ops: seq<Op>): Option<FanMode> {
    if ops == [] then None
    else
      var before, op := ops[..|ops| - 1], ops[|ops| - 1];
      var t := Step(Run(s, o, before), o, op);
      if t.target.Some? then t.target else LastCommand(s, o, before)
  }

  lemma StepKeepsOutstanding(s: PolicyState, o: Options, op: Op)
    requires Inv(s)
    ensures var t := Step(s, o, op);
      if t.target.Some? then Outstanding(t.state) == LevelForMode(t.target.value)
      else Outstanding(t.state).None? || Outstanding(t.state) == Outstanding(s)
  {
    if Step(s, o, op).target.Some? {
      EmissionLeavesTarget(s, o, op);
    } else {
      SilenceKeepsOutstanding(s, o, op);
    }
  }

  lemma {:induction false} OutstandingIsLast(mode: Option<FanMode>, o: Options, ops: seq<Op>)
    ensures var s := InitialState(mode); var last := LastCommand(s, o, ops);
      Outstanding(Run(s, o, ops)).Some? ==> last.Some? && LevelForMode(last.value) == Outstanding(Run(s, o, ops))
  {
    if ops != [] {
      var before := ops[..|ops| - 1];
      OutstandingIsLast(mode, o, before);
      ReachableStatesSatisfyInv(mode, o, before);
      StepKeepsOutstanding(Run(InitialState(mode), o, before), o, ops[|ops| - 1]);
    }
  }

  /** In every run a retry sends the latest command again if that leads below the confirmed
    * level, and otherwise follows the new reading. */
  lemma RetriesRepeatTheLastCommand(mode: Option<FanMode>, o: Options, ops: seq<Op>, op: Op)
    requires RetryStep(Run(InitialState(mode), o, ops), o, op)
    ensures var s := Run(InitialState(mode), o, ops); var last := LastCommand(InitialState(mode), o, ops);
      && last.Some? && LevelForMode(last.value).Some?
      && Step(s, o, op).target == Some(if LevelForMode(last.value).value < s.confirmedLevel.value then last.value
                                       else ModeForLevel(LevelForPm25(op.pm25.value, o)))
  {
    var s := Run(InitialState(mode), o, ops);
    ReachableStatesSatisfyInv(mode, o, ops);
    OutstandingIsLast(mode, o, ops);
    RetriesEmit(s, o, op);
    ModeAndLevelAreInverse(s.failedLevel.value, LastCommand(InitialState(mode), o, ops).value);
  }

  lemma StepStaysGrounded(s: PolicyState, o: Options, op: Op, h: seq<Reading>, e: nat)
    requires Inv(s) && HistoryMatches(s, o, h) && Justified(h, s) && Grounded(o, h, e, s)
    ensures var t := Step(s, o, op); var h' := h + Accepted(s, o, op);
      Grounded(o, h', if t.target.Some? && !RetryStep(s, o, op) then |h'| else e, t.state)
  {
    if Step(s, o, op).target.Some? {
      if RetryStep(s, o, op) {
        RetryStaysGrounded(s, o, op, h, e);
      } else {
        EmissionIsGrounded(s, o, op, h);
      }
    } else {
      SilenceKeepsOutstanding(s, o, op);
      var h' := h + Accepted(s, o, op);
      if e <= |h| {
        assert h'[..e] == h[..e];
      }
    }
  }

  lemma {:induction false} RunIsGrounded(mode: Option<FanMode>, o: Options, ops: seq<Op>)
    requires StaleFree(InitialState(mode), o, ops)
    ensures var s := InitialState(mode);
      Grounded(o, Readings(s, o, ops), Origin(s, o, ops), Run(s, o, ops))
  {
    if ops != [] {
      var before := ops[..|ops| - 1];
      var s := InitialState(mode);
      RunIsGrounded(mode, o, before);
      RunIsJustified(mode, o, before);
      StepStaysGrounded(Run(s, o, before), o, ops[|ops| - 1], Readings(s, o, before), Origin(s, o, before));
    }
  }

  // ---- what happened since ----

  /** The clock of the readings never runs backwards. */
  predicate Forward(h: seq<Reading>) {
    forall i, j | 0 <= i < j < |h| :: h[i].at <= h[j].at
  }

  /** The readings after the first e would warrant the downshift on their own. */
  ghost predicate DescentSince(o: Options, h: seq<Reading>, e: nat, level: LowerLevel) {
    exists i :: e <= i && Spans(h, i, DownshiftDelay(o, level)) && AllAtMost(h, i, level)
  }

  ghost predicate ClimbSince(o: Options, h: seq<Reading>, e: nat, confirmed: Level) {
    exists i :: e <= i && Spans(h, i, UpshiftDelay(o)) && AllAbove(h, i, confirmed)
  }

  /** From the reading that emitted the failed command on every reading has stayed on the
    * command's side, or the readings since then warrant it on their own. */
  ghost predicate Sustained(o: Options, h: seq<Reading>, e: nat, confirmed: Level, level: Level) {
    if level < confirmed then AllAtMost(h, e - 1, level) || DescentSince(o, h, e, level)
    else UpshiftDelay(o) == 0.0 || AllAbove(h, e - 1, confirmed) || ClimbSince(o, h, e, confirmed)
  }

  lemma SpansLater(h: seq<Reading>, e: nat, i: int, delay: real)
    requires Increasing(h) && Forward(h) && 0 < e < |h| && Spans(h[..e], i, delay)
    ensures Spans(h, i, delay)
  {
    assert h[..e][e - 1] == h[e - 1] && h[..e][i] == h[i];
  }

  lemma DescentIsSustained(o: Options, h: seq<Reading>, e: nat, confirmed: Level, failed: Level, level: Level)
    requires Increasing(h) && Forward(h) && 0 < e < |h| && Grounds(o, h, e, confirmed, failed)
    requires level < confirmed && (failed < confirmed ==> level == failed)
    ensures DownshiftWarranted(o, h, level) <==> Sustained(o, h, e, confirmed, level)
  {
    if AllAtMost(h, e - 1, level) {
      assert h[e - 1].level <= level;
      var i :| Spans(h[..e], i, DownshiftDelay(o, level)) && AllAtMost(h[..e], i, level);
      SpansLater(h, e, i, DownshiftDelay(o, level));
      forall k | i <= k < |h|
        ensures h[k].level <= level
      {
        assert k < e ==> h[..e][k] == h[k];
      }
      assert AllAtMost(h, i, level);
    }
    if i :| Spans(h, i, DownshiftDelay(o, level)) && AllAtMost(h, i, level) {
      assert i < e ==> AllAtMost(h, e - 1, level);
    }
  }

  lemma ClimbIsSustained(o: Options, h: seq<Reading>, e: nat, confirmed: Level, failed: Level)
    requires Increasing(h) && Forward(h) && 0 < e < |h| && Grounds(o, h, e, confirmed, failed)
    requires h[e - 1].level > confirmed && UpshiftDelay(o) > 0.0
    ensures ClimbWarranted(o, h, confirmed) <==> AllAbove(h, e - 1, confirmed) || ClimbSince(o, h, e, confirmed)
  {
    if AllAbove(h, e - 1, confirmed) {
      var i :| Spans(h[..e], i, UpshiftDelay(o)) && AllAbove(h[..e], i, confirmed);
      SpansLater(h, e, i, UpshiftDelay(o));
      forall k | i <= k < |h|
        ensures h[k].level > confirmed
      {
        assert k < e ==> h[..e][k] == h[k];
      }
      assert AllAbove(h, i, confirmed);
    }
    if i :| Spans(h, i, UpshiftDelay(o)) && AllAbove(h, i, confirmed) {
      assert i < e ==> AllAbove(h, e - 1, confirmed);
    }
  }

  /** The readings of a retry, the level it emits and the level held meanwhile. */
  lemma RetryIsSustained(s: PolicyState, o: Options, op: Op, h: seq<Reading>, e: nat)
    requires Inv(s) && HistoryMatches(s, o, h) && Grounded(o, h, e, s) && RetryStep(s, o, op)
    requires Forward(h + Accepted(s, o, op))
    ensures var h' := h + Accepted(s, o, op); var confirmed := s.confirmedLevel.value;
      var level := RetriedLevel(confirmed, s.failedLevel.value, LevelForPm25(op.pm25.value, o));
      TargetWarranted(o, h', confirmed, ModeForLevel(level)) <==> Sustained(o, h', e, confirmed, level)
  {
    var h' := h + Accepted(s, o, op);
    var confirmed, failed := s.confirmedLevel.value, s.failedLevel.value;
    var level := RetriedLevel(confirmed, failed, LevelForPm25(op.pm25.value, o));
    RetriesEmit(s, o, op);
    ModeAndLevelAreInverse(level, Auto);
    HistoryGrows(s, o, op, h);
    assert Grounds(o, h, e, confirmed, failed);
    assert h'[..e] == h[..e] && h'[e - 1] == h[e - 1];
    if level < confirmed {
      DescentIsSustained(o, h', e, confirmed, failed, level);
    } else if UpshiftDelay(o) > 0.0 {
      ClimbIsSustained(o, h', e, confirmed, failed);
    }
  }

  /** With failures included: on a clock that never runs backwards, and until a retry
    * carries a contradicted dwell over, every target emitted against a known level is
    * warranted by the readings exactly if it is no retry, or the readings since the
    * emission of the failed command sustain it. */
  lemma CommandsAreWarrantedExactly(mode: Option<FanMode>, o: Options, ops: seq<Op>, op: Op)
    requires StaleFree(InitialState(mode), o, ops)
    requires Forward(Readings(InitialState(mode), o, ops + [op]))
    ensures var s0 := InitialState(mode); var s := Run(s0, o, ops);
      var t := Step(s, o, op); var h := Readings(s0, o, ops + [op]);
      t.target.Some? && HeldLevel(s, op).Some? ==>
        LevelForMode(t.target.value).Some?
        && (TargetWarranted(o, h, HeldLevel(s, op).value, t.target.value) <==>
              (RetryStep(s, o, op) ==>
                 Sustained(o, h, Origin(s0, o, ops), HeldLevel(s, op).value, LevelForMode(t.target.value).value)))
  {
    var s0 := InitialState(mode);
    var s := Run(s0, o, ops);
    RunExtends(s0, o, ops, op);
    RunIsJustified(mode, o, ops);
    StepIsJustified(s, o, op, Readings(s0, o, ops));
    if RetryStep(s, o, op) {
      RunIsGrounded(mode, o, ops);
      RetriesEmit(s, o, op);
      ModeAndLevelAreInverse(RetriedLevel(s.confirmedLevel.value, s.failedLevel.value, LevelForPm25(op.pm25.value, o)), Auto);
      RetryIsSustained(s, o, op, Readings(s0, o, ops), Origin(s0, o, ops));
    }
  }
}
