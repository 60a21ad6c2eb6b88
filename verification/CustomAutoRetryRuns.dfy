/** Two runs without any contradicted dwell in which a retry is not supported. */
module CustomAutoRetryRuns {
  import opened Models
  import opened CustomAutoPolicy
  import opened CustomAutoInvariant
  import opened CustomAutoHistory
  import opened CustomAutoRetry

  /** Upshifts at once, downshifts after ten minutes. */
  const EAGER: Options := Options(true, [3, 5, 9, 15], 0, [10, 10, 10, 10])

  /** Low after one minute. */
  const BRISK: Options := Options(true, [3, 5, 9, 15], 3, [10, 1, 10, 10])

  const MEDIUM: PolicyState := InitialState(Some(Medium))

  lemma Bands(o: Options)
    requires o.boundaries == [3, 5, 9, 15]
    ensures LevelForPm25(0, o) == 1 && LevelForPm25(4, o) == 2 && LevelForPm25(100, o) == 5
  {
    LevelIsTheBand(0, o);
    LevelIsTheBand(4, o);
    LevelIsTheBand(100, o);
    var b := o.boundaries;
    assert b[0] == 3 && b[1] == 5 && b[2] == 9 && b[3] == 15;
  }

  /** These operations lead from Medium to s, accept these readings, and carry no
    * contradicted dwell over. */
  predicate Reaches(o: Options, ops: seq<Op>, s: PolicyState, h: seq<Reading>) {
    Run(MEDIUM, o, ops) == s && Readings(MEDIUM, o, ops) == h && StaleFree(MEDIUM, o, ops)
  }

  lemma OneMore(o: Options, ops: seq<Op>, s: PolicyState, h: seq<Reading>, op: Op)
    requires Reaches(o, ops, s, h) && !StaleStep(s, o, op)
    ensures Reaches(o, ops + [op], Step(s, o, op).state, h + Accepted(s, o, op))
  {
    RunExtends(MEDIUM, o, ops, op);
    assert (ops + [op])[..|ops|] == ops;
  }

  // ---- a failed upshift ----

  const CLIMBING: PolicyState := PolicyState(Some(3), Some(1), None, [], Some(Turbo), None, None, None)
  const CLIMB_FAILED: PolicyState := PolicyState(Some(3), Some(1), None, [], None, None, Some(1), Some(5))

  lemma ClimbFails(ops: seq<Op>)
    requires ops == [Observe(Some(100), 1, 0.0), Fail]
    ensures Reaches(EAGER, ops, CLIMB_FAILED, [Reading(5, 1, 0.0)])
  {
    Bands(EAGER);
    assert Step(MEDIUM, EAGER, ops[0]).state == CLIMBING;
    assert Step(CLIMBING, EAGER, ops[1]).state == CLIMB_FAILED;
    OneMore(EAGER, [], MEDIUM, [], ops[0]);
    OneMore(EAGER, [] + [ops[0]], CLIMBING, [] + [Reading(5, 1, 0.0)], ops[1]);
    assert [] + [ops[0]] + [ops[1]] == ops;
  }

  /** After a failed upshift the next reading is followed at once: one second after a
    * reading in the highest band the policy sends the lowest level. */
  lemma FailedClimbDropsAtOnce(ops: seq<Op>, late: Op)
    requires ops == [Observe(Some(100), 1, 0.0), Fail] && late == Observe(Some(0), 2, 1.0)
    ensures var s := Run(MEDIUM, EAGER, ops);
      && StaleFree(MEDIUM, EAGER, ops) && !StaleStep(s, EAGER, late)
      && Step(s, EAGER, late).target == Some(Sleep)
      && !DownshiftWarranted(EAGER, Readings(MEDIUM, EAGER, ops + [late]), 1)
  {
    ClimbFails(ops);
    Bands(EAGER);
    RunExtends(MEDIUM, EAGER, ops, late);
    var h := Readings(MEDIUM, EAGER, ops + [late]);
    assert |h| == 2 && h[0].level == 5;
  }

  // ---- a failed downshift ----

  const DWELL: Dwell := Dwell(2, 1, 0.0, false)

  const WAITING: PolicyState := PolicyState(Some(3), Some(1), None, [DWELL], None, None, None, None)
  const SINKING: PolicyState := PolicyState(Some(3), Some(2), None, [], Some(Low), None, None, None)
  const DEFERRING: PolicyState :=
    PolicyState(Some(3), Some(3), None, [], Some(Low), Some(Deferred(100, 3, 61.0)), None, None)
  const SINK_FAILED: PolicyState := PolicyState(Some(3), Some(3), None, [], None, None, Some(3), Some(2))

  lemma LowDwells()
    ensures Crossings([], 2, 3, 1, 0.0) == [DWELL] && Crossings([DWELL], 2, 3, 2, 60.0) == [DWELL]
    ensures LowestMatured([DWELL], BRISK, 1, 0.0) == None && LowestMatured([DWELL], BRISK, 2, 60.0) == Some(2)
    ensures Below([DWELL], 2) == []
  {
    FindInContiguous([DWELL], 3, 2);
    assert [DWELL][1..] == [];
  }

  lemma Sinks(ops: seq<Op>)
    requires ops == [Observe(Some(4), 1, 0.0), Observe(Some(4), 2, 60.0)]
    ensures Reaches(BRISK, ops, SINKING, [Reading(2, 1, 0.0), Reading(2, 2, 60.0)])
  {
    Bands(BRISK);
    LowDwells();
    assert Step(MEDIUM, BRISK, ops[0]).state == WAITING;
    assert Step(WAITING, BRISK, ops[1]).state == SINKING;
    OneMore(BRISK, [], MEDIUM, [], ops[0]);
    OneMore(BRISK, [] + [ops[0]], WAITING, [] + [Reading(2, 1, 0.0)], ops[1]);
    assert [] + [ops[0]] + [ops[1]] == ops;
  }

  lemma SinkDefers(ops: seq<Op>)
    requires ops == [Observe(Some(4), 1, 0.0), Observe(Some(4), 2, 60.0), Observe(Some(100), 3, 61.0)]
    ensures Reaches(BRISK, ops, DEFERRING, [Reading(2, 1, 0.0), Reading(2, 2, 60.0), Reading(5, 3, 61.0)])
  {
    var h := [Reading(2, 1, 0.0), Reading(2, 2, 60.0)];
    Bands(BRISK);
    Sinks(ops[..2]);
    assert Step(SINKING, BRISK, ops[2]).state == DEFERRING;
    OneMore(BRISK, ops[..2], SINKING, h, ops[2]);
    assert ops[..2] + [ops[2]] == ops;
  }

  lemma SinkFails(ops: seq<Op>)
    requires ops == [Observe(Some(4), 1, 0.0), Observe(Some(4), 2, 60.0), Observe(Some(100), 3, 61.0), Fail]
    ensures Reaches(BRISK, ops, SINK_FAILED, [Reading(2, 1, 0.0), Reading(2, 2, 60.0), Reading(5, 3, 61.0)])
  {
    var h := [Reading(2, 1, 0.0), Reading(2, 2, 60.0), Reading(5, 3, 61.0)];
    SinkDefers(ops[..3]);
    assert Step(DEFERRING, BRISK, ops[3]).state == SINK_FAILED;
    OneMore(BRISK, ops[..3], DEFERRING, h, ops[3]);
    assert ops[..3] + [ops[3]] == ops && h + [] == h;
  }

  /** A failed downshift is repeated although a reading above its level arrived while it
    * was in flight: the failure has dropped that reading. */
  lemma RetryForgetsTheReadingInFlight(ops: seq<Op>, late: Op)
    requires ops == [Observe(Some(4), 1, 0.0), Observe(Some(4), 2, 60.0), Observe(Some(100), 3, 61.0), Fail]
    requires late == Observe(Some(4), 4, 62.0)
    ensures var s := Run(MEDIUM, BRISK, ops);
      && StaleFree(MEDIUM, BRISK, ops) && !StaleStep(s, BRISK, late)
      && Step(s, BRISK, late).target == Some(Low)
      && !DownshiftWarranted(BRISK, Readings(MEDIUM, BRISK, ops + [late]), 2)
  {
    SinkFails(ops);
    Bands(BRISK);
    RunExtends(MEDIUM, BRISK, ops, late);
    var h := Readings(MEDIUM, BRISK, ops + [late]);
    assert |h| == 4 && h[2].level == 5;
  }
}
