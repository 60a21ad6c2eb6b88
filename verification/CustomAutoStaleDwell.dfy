/** A failed downshift can let a crossing fire that the readings contradict. */
module CustomAutoStaleDwell {
  import opened Models
  import opened CustomAutoPolicy
  import opened CustomAutoInvariant
  import opened CustomAutoHistory

  const SLOW: Options := Options(true, [3, 5, 9, 15], 3, [10, 1, 1, 1])

  const START: PolicyState := InitialState(Some(Medium))

  function D(level: LowerLevel): Dwell {
    Dwell(level, 1, 0.0, false)
  }

  const S1: PolicyState := PolicyState(Some(3), Some(1), None, [D(1), D(2)], None, None, None, None)
  const S2: PolicyState := PolicyState(Some(3), Some(2), None, [D(1)], Some(Low), None, None, None)
  const S3: PolicyState := PolicyState(Some(3), Some(2), None, [D(1)], None, None, Some(2), Some(2))
  const S4: PolicyState := PolicyState(Some(3), Some(3), None, [D(1)], Some(Low), None, Some(2), Some(2))
  const S5: PolicyState := PolicyState(Some(2), Some(3), None, [D(1)], None, None, None, None)

  lemma Levels()
    ensures LevelForPm25(0, SLOW) == 1 && LevelForPm25(4, SLOW) == 2
  {
    LevelIsTheBand(0, SLOW);
    LevelIsTheBand(4, SLOW);
    var b := SLOW.boundaries;
    assert b[0] == 3 && b[1] == 5 && b[2] == 9 && b[3] == 15;
  }

  lemma Started()
    ensures Crossings([], 1, 3, 1, 0.0) == [D(1), D(2)] && LowestMatured([D(1), D(2)], SLOW, 1, 0.0) == None
  {
    assert [D(1), D(2)][1..] == [D(2)];
    assert LowestMatured([D(2)], SLOW, 1, 0.0) == None;
  }

  lemma Crossed()
    ensures Crossings([D(1), D(2)], 1, 3, 2, 60.0) == [D(1), D(2)]
    ensures LowestMatured([D(1), D(2)], SLOW, 2, 60.0) == Some(2) && Below([D(1), D(2)], 2) == [D(1)]
  {
    var ds := [D(1), D(2)];
    FindInContiguous(ds, 3, 1);
    FindInContiguous(ds, 3, 2);
    assert ds[1..] == [D(2)];
    assert LowestMatured([D(2)], SLOW, 2, 60.0) == Some(2);
    assert Below([D(2)], 2) == [];
  }

  lemma Held()
    ensures Crossings([D(1)], 1, 2, 4, 600.0) == [D(1)] && LowestMatured([D(1)], SLOW, 4, 600.0) == Some(1)
    ensures Below([D(1)], 2) == [D(1)]
  {
    FindInContiguous([D(1)], 2, 1);
    assert [D(1)][1..] == [];
  }

  /** One operation takes the policy from s to t and adds these readings. */
  predicate Advances(o: Options, s: PolicyState, op: Op, t: PolicyState, added: seq<Reading>) {
    Step(s, o, op).state == t && Accepted(s, o, op) == added
  }

  lemma TimersStart()
    ensures Advances(SLOW, START, Observe(Some(0), 1, 0.0), S1, [Reading(1, 1, 0.0)])
  {
    Levels();
    Started();
  }

  lemma LowIsSent()
    ensures Advances(SLOW, S1, Observe(Some(0), 2, 60.0), S2, [Reading(1, 2, 60.0)])
  {
    Levels();
    Crossed();
  }

  lemma LowFails()
    ensures Advances(SLOW, S2, Fail, S3, [])
  {
  }

  lemma LowIsRetried()
    ensures Advances(SLOW, S3, Observe(Some(4), 3, 61.0), S4, [Reading(2, 3, 61.0)])
    ensures StaleStep(S3, SLOW, Observe(Some(4), 3, 61.0))
  {
    Levels();
    Held();
  }

  lemma LowIsAcknowledged()
    ensures Advances(SLOW, S4, Acknowledge(Low), S5, [])
  {
    Held();
  }

  lemma SleepIsSent()
    ensures Accepted(S5, SLOW, Observe(Some(0), 4, 600.0)) == [Reading(1, 4, 600.0)]
    ensures Step(S5, SLOW, Observe(Some(0), 4, 600.0)).target == Some(Sleep)
    ensures !RetryStep(S5, SLOW, Observe(Some(0), 4, 600.0))
  {
    Levels();
    Held();
  }

  /** A run from the start leads to s by these operations and accepts these readings. */
  predicate Reaches(ops: seq<Op>, s: PolicyState, h: seq<Reading>) {
    Run(START, SLOW, ops) == s && Readings(START, SLOW, ops) == h
  }

  lemma OneMore(ops: seq<Op>, s: PolicyState, h: seq<Reading>, op: Op, t: PolicyState, added: seq<Reading>)
    requires Reaches(ops, s, h) && Advances(SLOW, s, op, t, added)
    ensures Reaches(ops + [op], t, h + added)
  {
    RunExtends(START, SLOW, ops, op);
  }

  lemma TwoReach(ops: seq<Op>)
    requires ops == [Observe(Some(0), 1, 0.0), Observe(Some(0), 2, 60.0)]
    ensures Reaches(ops, S2, [Reading(1, 1, 0.0), Reading(1, 2, 60.0)])
  {
    TimersStart();
    LowIsSent();
    OneMore([], START, [], ops[0], S1, [Reading(1, 1, 0.0)]);
    OneMore([] + [ops[0]], S1, [] + [Reading(1, 1, 0.0)], ops[1], S2, [Reading(1, 2, 60.0)]);
    assert [] + [ops[0]] + [ops[1]] == ops;
  }

  lemma FourReach(ops: seq<Op>)
    requires ops == [Observe(Some(0), 1, 0.0), Observe(Some(0), 2, 60.0), Fail, Observe(Some(4), 3, 61.0)]
    ensures Reaches(ops, S4, [Reading(1, 1, 0.0), Reading(1, 2, 60.0), Reading(2, 3, 61.0)])
  {
    var first, h := [ops[0], ops[1]], [Reading(1, 1, 0.0), Reading(1, 2, 60.0)];
    TwoReach(first);
    LowFails();
    LowIsRetried();
    OneMore(first, S2, h, ops[2], S3, []);
    OneMore(first + [ops[2]], S3, h + [], ops[3], S4, [Reading(2, 3, 61.0)]);
    assert first + [ops[2]] + [ops[3]] == ops;
  }

  lemma FiveReach(ops: seq<Op>)
    requires ops == [Observe(Some(0), 1, 0.0), Observe(Some(0), 2, 60.0), Fail,
                     Observe(Some(4), 3, 61.0), Acknowledge(Low)]
    ensures Reaches(ops, S5, [Reading(1, 1, 0.0), Reading(1, 2, 60.0), Reading(2, 3, 61.0)])
  {
    var h := [Reading(1, 1, 0.0), Reading(1, 2, 60.0), Reading(2, 3, 61.0)];
    FourReach(ops[..4]);
    LowIsAcknowledged();
    OneMore(ops[..4], S4, h, ops[4], S5, []);
    assert ops[..4] + [ops[4]] == ops && h + [] == h;
  }

  lemma ThirdReadingIsNotHeld(h: seq<Reading>)
    requires |h| == 4 && h[2].level == 2
    requires h[2].at == 61.0 && h[3].at == 600.0
    ensures !DownshiftWarranted(SLOW, h, 1)
  {
    forall i | Spans(h, i, DownshiftDelay(SLOW, 1))
      ensures !AllAtMost(h, i, 1)
    {
      assert h[2].level == 2;
    }
  }

  /** From Medium, two Sleep-band readings emit Low, which fails; a Low-band reading
    * retries it and keeps the dwell towards Sleep; Low is acknowledged. Ten minutes
    * after the first reading the policy shifts down to Sleep, although a reading
    * above the Sleep band came after the dwell began: that step is not warranted. */
  lemma StaleDwellFires(ops: seq<Op>, late: Op)
    requires ops == [Observe(Some(0), 1, 0.0), Observe(Some(0), 2, 60.0), Fail,
                     Observe(Some(4), 3, 61.0), Acknowledge(Low)]
    requires late == Observe(Some(0), 4, 600.0)
    ensures var s := Run(START, SLOW, ops);
      && Step(s, SLOW, late).target == Some(Sleep)
      && !RetryStep(s, SLOW, late)
      && !DownshiftWarranted(SLOW, Readings(START, SLOW, ops + [late]), 1)
  {
    FiveReach(ops);
    SleepIsSent();
    RunExtends(START, SLOW, ops, late);
    ThirdReadingIsNotHeld(Readings(START, SLOW, ops + [late]));
  }
}
