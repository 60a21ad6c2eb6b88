/** Commands are sent as soon as the readings warrant them, and the timers ask for a sample
  * at just that time. */
module CustomAutoPromptness {
  import opened Models
  import opened CustomAutoPolicy
  import opened CustomAutoInvariant
  import opened CustomAutoTimers
  import opened CustomAutoDiary
  import opened CustomAutoDiaryRefinement
  import H = CustomAutoHistory

  // ---- the diary is the history ----

  function Plain(notes: seq<Note>): seq<H.Reading> {
    seq(|notes|, i requires 0 <= i < |notes| => H.Reading(notes[i].level, notes[i].revision, notes[i].at))
  }

  /** The notes are the last of the readings. */
  predicate Ends(h: seq<H.Reading>, notes: seq<Note>) {
    |notes| <= |h| && Plain(notes) == h[|h| - |notes|..]
  }

  lemma EndsMore(h: seq<H.Reading>, notes: seq<Note>, note: Note)
    requires Ends(h, notes)
    ensures Ends(h + [H.Reading(note.level, note.revision, note.at)], notes + [note])
  {
  }

  lemma RemarkedEnds(h: seq<H.Reading>, notes: seq<Note>, note: Note)
    requires Ends(h, notes) && notes != [] && note == notes[|notes| - 1].(use := note.use, sent := note.sent)
    ensures Ends(h, notes[..|notes| - 1] + [note])
  {
    assert Plain(notes[..|notes| - 1] + [note]) == Plain(notes);
  }

  lemma ObservationEnds(k: Diary, o: Options, s: PolicyState, op: Op, h: seq<H.Reading>)
    requires Tells(k, o, s) && Ends(h, k.notes) && op.Observe? && Accepts(s, o, op.pm25, op.revision, op.at)
    ensures Ends(h + H.Accepted(s, o, op), Next(k, o, op).0.notes)
  {
    var note := Note(LevelForPm25(op.pm25.value, o), op.revision, op.at, Weighed, None);
    if k.flying.Some? {
      EndsMore(h, k.notes, note.(use := Parked));
    } else {
      var (use, sent) := Judged(k.(newest := Some(op.revision)), o, note);
      EndsMore(h, k.notes, note.(use := use, sent := sent));
    }
  }

  lemma AcknowledgementEnds(k: Diary, o: Options, s: PolicyState, mode: FanMode, h: seq<H.Reading>)
    requires Tells(k, o, s) && Ends(h, k.notes)
    ensures Ends(h, Next(k, o, Acknowledge(mode)).0.notes)
  {
    if k.parked && k.flying.Some? && ModeForLevel(k.flying.value) == mode {
      var (use, sent) := Judged(Unparked(k), o, Reweighed(k));
      RemarkedEnds(h, k.notes, Reweighed(k).(use := use, sent := sent));
    }
  }

  lemma NextEnds(k: Diary, o: Options, s: PolicyState, op: Op, h: seq<H.Reading>)
    requires Tells(k, o, s) && Ends(h, k.notes)
    ensures Ends(h + H.Accepted(s, o, op), Next(k, o, op).0.notes)
  {
    assert h + [] == h;
    if op.Observe? {
      if Accepts(s, o, op.pm25, op.revision, op.at) {
        ObservationEnds(k, o, s, op, h);
      }
    } else if op.Acknowledge? {
      AcknowledgementEnds(k, o, s, op.mode, h);
    }
  }

  /** The diary's notes are the readings that the policy has accepted since the level was
    * last set from outside. */
  lemma {:induction false} NotesAreReadings(mode: Option<FanMode>, o: Options, ops: seq<Op>)
    ensures Ends(H.Readings(InitialState(mode), o, ops), Written(mode, o, ops).notes)
  {
    if ops != [] {
      var n := |ops| - 1;
      NotesAreReadings(mode, o, ops[..n]);
      RunTells(mode, o, ops[..n]);
      NextEnds(Written(mode, o, ops[..n]), o, Run(InitialState(mode), o, ops[..n]), ops[n],
               H.Readings(InitialState(mode), o, ops[..n]));
    }
  }

  // ---- due means long enough ----

  /** The clock of the readings never runs backwards. */
  predicate Forward(notes: seq<Note>) {
    forall i, j | 0 <= i < j < |notes| :: notes[i].at <= notes[j].at
  }

  /** Some earlier reading lies the whole delay back, and from it on the air was worse. */
  ghost predicate LongClimb(notes: seq<Note>, o: Options, held: Level) {
    exists i: nat :: i < |notes| - 1 && Climbs(notes, held, i) && notes[|notes| - 1].at >= notes[i].at + o.upshiftSeconds as real
  }

  ghost predicate LongDescent(notes: seq<Note>, o: Options, level: LowerLevel) {
    exists i: nat :: i < |notes| - 1 && Descends(notes, level, i)
      && notes[|notes| - 1].at >= notes[i].at + o.downshiftMinutes[level - 1] as real * 60.0
  }

  lemma LongClimbIsDue(notes: seq<Note>, o: Options, held: Level)
    requires notes != [] && Forward(notes)
    requires var last := notes[|notes| - 1]; last.use == Weighed && last.sent.None? && last.level > held
    ensures ClimbDue(notes, o, held) <==> o.upshiftSeconds == 0 || LongClimb(notes, o, held)
  {
    var n := |notes| - 1;
    ClimbStartIsFirst(notes, held, n);
    assert Climbs(notes, held, n);
    var start := ClimbStart(notes, held).value;
    ClimbStartIsFirst(notes, held, start);
    if i: nat :| i < n && Climbs(notes, held, i) && notes[n].at >= notes[i].at + o.upshiftSeconds as real {
      assert start <= i;
    }
    if ClimbDue(notes, o, held) && o.upshiftSeconds != 0 {
      assert start < n;
    }
  }

  lemma LongDescentIsDue(notes: seq<Note>, o: Options, level: LowerLevel)
    requires notes != [] && Forward(notes)
    ensures DescentDue(notes, o, level) <==> LongDescent(notes, o, level)
  {
    var n := |notes| - 1;
    if i: nat :| i < n && Descends(notes, level, i)
                 && notes[n].at >= notes[i].at + o.downshiftMinutes[level - 1] as real * 60.0 {
      DescentStartIsFirst(notes, level, i);
      var start := DescentStart(notes, level).value;
      DescentStartIsFirst(notes, level, start);
      assert start <= i;
    }
    if DescentDue(notes, o, level) {
      DescentStartIsFirst(notes, level, DescentStart(notes, level).value);
    }
  }

  /** What a reading must lead to when no command is in flight or failed. */
  ghost predicate Prompt(notes: seq<Note>, o: Options, held: Level, target: Option<FanMode>)
    requires notes != []
  {
    var level := notes[|notes| - 1].level;
    if level > held then
      target == if o.upshiftSeconds == 0 || LongClimb(notes, o, held) then Some(ModeForLevel(level)) else None
    else
      && (target.None? <==> forall l: LowerLevel | level <= l < held :: !LongDescent(notes, o, l))
      && (forall l: LowerLevel | level <= l < held && LongDescent(notes, o, l)
            && (forall m: LowerLevel | level <= m < l :: !LongDescent(notes, o, m)) :: target == Some(ModeForLevel(l)))
  }

  lemma DueIsPrompt(notes: seq<Note>, o: Options, held: Level, sent: Option<Level>, target: Option<FanMode>)
    requires notes != [] && Forward(notes) && sent == Due(notes, o, held)
    requires var last := notes[|notes| - 1]; last.use == Weighed && last.sent.None?
    requires target == if sent.Some? then Some(ModeForLevel(sent.value)) else None
    ensures Prompt(notes, o, held, target)
  {
    if notes[|notes| - 1].level > held {
      LongClimbIsDue(notes, o, held);
    } else {
      forall l: LowerLevel
        ensures DescentDue(notes, o, l) <==> LongDescent(notes, o, l)
      {
        LongDescentIsDue(notes, o, l);
      }
    }
  }

  lemma {:induction false} NothingFailed(mode: Option<FanMode>, o: Options, ops: seq<Op>)
    requires H.FailureFree(ops)
    ensures Written(mode, o, ops).failed.None?
  {
    if ops != [] {
      NothingFailed(mode, o, ops[..|ops| - 1]);
    }
  }

  /** In every run without a failed command a reading taken with no command in flight sends
    * one exactly if the configured delay is over: upward to its own level once the readings
    * have been above the held level for the upshift seconds, downward to the lowest level
    * that has sufficed for its own minutes. */
  lemma CommandsArePrompt(mode: Option<FanMode>, o: Options, ops: seq<Op>, pm25: Pm25, revision: int, at: real)
    requires H.FailureFree(ops)
    requires var k := Written(mode, o, ops);
      && Legible(k, o, Some(pm25), revision, at) && k.flying.None? && k.held.Some?
      && Forward(k.notes + [Note(LevelForPm25(pm25, o), revision, at, Weighed, None)])
    ensures var k := Written(mode, o, ops);
      Prompt(k.notes + [Note(LevelForPm25(pm25, o), revision, at, Weighed, None)], o, k.held.value,
             Step(Run(InitialState(mode), o, ops), o, Observe(Some(pm25), revision, at)).target)
  {
    var k := Written(mode, o, ops);
    var all := k.notes + [Note(LevelForPm25(pm25, o), revision, at, Weighed, None)];
    NothingFailed(mode, o, ops);
    PolicyFollowsTheDiary(mode, o, ops, Observe(Some(pm25), revision, at));
    DueIsPrompt(all, o, k.held.value, Due(all, o, k.held.value),
                Step(Run(InitialState(mode), o, ops), o, Observe(Some(pm25), revision, at)).target);
  }

  /** The same for the reading parked behind a command, once that command is acknowledged:
    * it counts as if taken with the new level held. */
  lemma ParkedCommandsArePrompt(mode: Option<FanMode>, o: Options, ops: seq<Op>, reached: Level)
    requires var k := Written(mode, o, ops); k.parked && k.flying == Some(reached) && Forward(k.notes)
    ensures var k := Written(mode, o, ops); k.notes != []
    ensures var k := Written(mode, o, ops);
      Prompt(Unparked(k).notes + [Reweighed(k)], o, reached,
             Step(Run(InitialState(mode), o, ops), o, Acknowledge(ModeForLevel(reached))).target)
  {
    var k := Written(mode, o, ops);
    RunTells(mode, o, ops);
    var all := Unparked(k).notes + [Reweighed(k)];
    var target := Step(Run(InitialState(mode), o, ops), o, Acknowledge(ModeForLevel(reached))).target;
    PolicyFollowsTheDiary(mode, o, ops, Acknowledge(ModeForLevel(reached)));
    DueIsPrompt(all, o, reached, Due(all, o, reached), target);
  }

  // ---- the timers wake when a reading would fire ----

  /** What the newest note says of the level: a command it sent is in flight or held, not
    * below the note; without a delay no climb is left waiting. */
  predicate Settles(k: Diary, o: Options) {
    k.notes != [] ==>
      var last := k.notes[|k.notes| - 1];
      && (last.sent.Some? && k.flying.Some? ==> last.sent == k.flying)
      && (last.sent.Some? && k.flying.None? && k.failed.None? ==> last.sent == k.held)
      && (last.sent.Some? && last.use == Weighed ==> last.sent.value >= last.level)
      && (last.sent.None? && last.use == Weighed ==> k.flying.None? && k.failed.None? && k.held.Some?)
      && (last.sent.None? && last.use == Weighed && o.upshiftSeconds == 0 ==> last.level <= k.held.value)
  }

  lemma WeighingSettles(k: Diary, o: Options, note: Note)
    requires note.use == Weighed && note.sent.None?
    ensures Settles(Weigh(k, o, note).0, o)
  {
    if k.held.Some? {
      ClimbGrows(k.notes, note, k.held.value);
    }
  }

  lemma NextSettles(k: Diary, o: Options, op: Op)
    requires Settles(k, o) && (k.parked ==> k.notes != [] && k.notes[|k.notes| - 1].sent.None?)
    ensures Settles(Next(k, o, op).0, o)
  {
    if op.Observe? && Legible(k, o, op.pm25, op.revision, op.at) {
      WeighingSettles(k.(newest := Some(op.revision)), o, Note(LevelForPm25(op.pm25.value, o), op.revision, op.at, Weighed, None));
    } else if op.Acknowledge? && k.parked {
      WeighingSettles(Unparked(k), o, Reweighed(k));
    }
  }

  lemma {:induction false} RunSettles(mode: Option<FanMode>, o: Options, ops: seq<Op>)
    ensures Settles(Written(mode, o, ops), o)
  {
    if ops != [] {
      var n := |ops| - 1;
      RunSettles(mode, o, ops[..n]);
      RunTells(mode, o, ops[..n]);
      NextSettles(Written(mode, o, ops[..n]), o, ops[n]);
    }
  }

  /** At rest, with a newest reading that was weighed. */
  predicate Resting(k: Diary) {
    && k.flying.None? && k.failed.None? && k.held.Some? && k.notes != []
    && k.notes[|k.notes| - 1].use == Weighed
  }

  /** A dwell runs for exactly the levels from the newest reading's up to the one held. */
  lemma RestingDwells(k: Diary, o: Options, s: PolicyState)
    requires Inv(s) && Tells(k, o, s) && Settles(k, o) && Resting(k)
    ensures var held, level := k.held.value, k.notes[|k.notes| - 1].level;
      && Contiguous(s.downshifts, held) && |s.downshifts| == if level < held then held - level else 0
  {
    var held, n := k.held.value, |k.notes| - 1;
    var level := k.notes[n].level;
    assert k.notes == k.notes[..n] + [k.notes[n]];
    forall l: LowerLevel | l < held
      ensures FindDwell(s.downshifts, l).Some? <==> level <= l
      ensures FindDwell(s.downshifts, l).Some? <==> held - |s.downshifts| <= l
    {
      DescentGrows(k.notes[..n], k.notes[n], l);
      assert DwellTells(FindDwell(s.downshifts, l), k.notes, DescentStart(k.notes, l));
      FindInContiguous(s.downshifts, held, l);
    }
    if level < held {
      assert FindDwell(s.downshifts, level).Some? <==> level <= level;
    }
    if s.downshifts != [] {
      var l := s.downshifts[0].level;
      assert l == held - |s.downshifts|;
      assert FindDwell(s.downshifts, l).Some? <==> level <= l;
    }
  }

  /** An upshift waits exactly if the newest reading lies above the level held. */
  lemma RestingUpshift(k: Diary, o: Options, s: PolicyState)
    requires Inv(s) && Tells(k, o, s) && Settles(k, o) && Resting(k)
    ensures s.upshift.Some? <==> k.notes[|k.notes| - 1].level > k.held.value
    ensures s.upshift.Some? ==> o.upshiftSeconds > 0
  {
    var n := |k.notes| - 1;
    assert k.notes == k.notes[..n] + [k.notes[n]];
    ClimbGrows(k.notes[..n], k.notes[n], k.held.value);
  }

  /** A dwell of the policy, unmarked, bounds when its level matures. */
  lemma EarliestDwell(s: PolicyState, o: Options, revision: int, at: real)
    requires forall i | 0 <= i < |s.downshifts| :: s.downshifts[i].revision < revision
    requires s.upshift.None?
    ensures LowestMatured(s.downshifts, o, revision, at).Some? <==>
      NextBoundary(Strip(s), o).Some? && at >= NextBoundary(Strip(s), o).value
  {
    var ds := StripDwells(s.downshifts);
    LowestMaturedIs(s.downshifts, o, revision, at);
    BoundariesOfDwells(ds, o);
    assert Boundaries(Strip(s), o) == DwellBoundaries(ds, o);
    forall i | 0 <= i < |ds|
      ensures DwellBoundary(ds[i], o) in DwellBoundaries(ds, o)
      ensures Matured(s.downshifts[i], o, revision, at) <==> at >= DwellBoundary(ds[i], o)
    {
      assert ds[i] in ds;
    }
  }

  /** The dwells of a reading at the same level are the dwells that run. */
  lemma SameCrossings(ds: seq<Dwell>, level: Level, held: Level, revision: int, at: real)
    requires level < held && Contiguous(ds, held) && |ds| == held - level
    ensures Crossings(ds, level, held, revision, at) == ds
  {
    forall i | 0 <= i < |ds|
      ensures Crossing(ds, level + i, revision, at) == ds[i]
    {
      FindInContiguous(ds, held, level + i);
    }
  }

  lemma NoTimers(s: PolicyState, o: Options)
    requires s.upshift.None? && s.downshifts == []
    ensures NextBoundary(Strip(s), o).None?
  {
  }

  lemma OneTimer(s: PolicyState, o: Options)
    requires s.upshift.Some? && s.downshifts == []
    ensures NextBoundary(Strip(s), o) == Some(UpshiftBoundary(s.upshift.value, o))
  {
    var u := Strip(s).upshift.value;
    assert Boundaries(Strip(s), o) == [UpshiftBoundary(u, o)];
    assert UpshiftBoundary(u, o) in Boundaries(Strip(s), o);
  }

  /** A repeated reading fires exactly from the earliest boundary on. */
  lemma RepeatedReadingFires(k: Diary, o: Options, s: PolicyState, revision: int, at: real)
    requires Inv(s) && Tells(k, o, s) && Settles(k, o) && Resting(k) && s.lastRevision.Some? && revision > s.lastRevision.value
    ensures var held, level := k.held.value, k.notes[|k.notes| - 1].level;
      Hysteresis(s.(lastRevision := Some(revision)), o, held, level, revision, at).target.Some? <==>
        NextBoundary(Strip(s), o).Some? && at >= NextBoundary(Strip(s), o).value
  {
    var held, level := k.held.value, k.notes[|k.notes| - 1].level;
    RestingDwells(k, o, s);
    RestingUpshift(k, o, s);
    if level < held {
      SameCrossings(s.downshifts, level, held, revision, at);
      EarliestDwell(s, o, revision, at);
    } else if level == held {
      NoTimers(s, o);
    } else {
      OneTimer(s, o);
    }
  }

  /** In every run, at rest, the timers not yet asked to sample wake exactly when one more
    * reading in the present band would send a command: the next boundary, taken over all
    * timers that run, is the earliest time at which it would. */
  lemma TimersMeetTheReadings(mode: Option<FanMode>, o: Options, ops: seq<Op>, pm25: Pm25, revision: int, at: real)
    requires var k := Written(mode, o, ops);
      Resting(k) && Legible(k, o, Some(pm25), revision, at) && LevelForPm25(pm25, o) == k.notes[|k.notes| - 1].level
    ensures var s := Run(InitialState(mode), o, ops); var next := NextBoundary(Strip(s), o);
      Step(s, o, Observe(Some(pm25), revision, at)).target.Some? <==> next.Some? && at >= next.value
  {
    var s := Run(InitialState(mode), o, ops);
    RunTells(mode, o, ops);
    RunSettles(mode, o, ops);
    ReachableStatesSatisfyInv(mode, o, ops);
    RepeatedReadingFires(Written(mode, o, ops), o, s, revision, at);
  }
}
