/** The policy with its timers, its failure marker and its deferred reading sends exactly
  * the commands that the diary of all readings calls for. */
module CustomAutoDiaryRefinement {
  import opened Models
  import opened CustomAutoPolicy
  import opened CustomAutoInvariant
  import opened CustomAutoTimers
  import opened CustomAutoDiary

  // ---- the diary is in order ----

  /** Revisions increase and none is newer than the newest. */
  predicate InOrder(notes: seq<Note>, newest: Option<int>) {
    && (forall i, j | 0 <= i < j < |notes| :: notes[i].revision < notes[j].revision)
    && (notes != [] ==> newest.Some?)
    && (forall i | 0 <= i < |notes| :: notes[i].revision <= newest.value)
  }

  /** A command has been sent and every reading since is parked. */
  predicate Sending(notes: seq<Note>) {
    notes != [] && (
      var last := notes[|notes| - 1];
      last.sent.Some? || (last.use == Parked && Sending(notes[..|notes| - 1])))
  }

  lemma {:induction false} SendingStopsTheClimb(notes: seq<Note>, held: int)
    requires Sending(notes)
    ensures ClimbStart(notes, held).None?
  {
    if notes[|notes| - 1].sent.None? {
      SendingStopsTheClimb(notes[..|notes| - 1], held);
    }
  }

  lemma DescentGrows(notes: seq<Note>, note: Note, level: int)
    ensures DescentStart(notes + [note], level) ==
      if EndsDescent(note, level) then None
      else if DescentStart(notes, level).Some? then DescentStart(notes, level)
      else if note.use == Weighed then Some(|notes|)
      else None
  {
    assert (notes + [note])[..|notes|] == notes;
  }

  lemma ClimbGrows(notes: seq<Note>, note: Note, held: int)
    ensures ClimbStart(notes + [note], held) ==
      if EndsClimb(note, held) then None
      else if ClimbStart(notes, held).Some? then ClimbStart(notes, held)
      else if note.use == Weighed then Some(|notes|)
      else None
  {
    assert (notes + [note])[..|notes|] == notes;
  }

  // ---- finding a dwell ----

  lemma {:induction false} FindCons(d: Dwell, ds: seq<Dwell>, level: int)
    ensures FindDwell([d] + ds, level) ==
      if FindDwell(ds, level).Some? then FindDwell(ds, level) else if d.level == level then Some(d) else None
  {
    if ds != [] {
      FindCons(d, ds[..|ds| - 1], level);
      assert ([d] + ds)[..|ds|] == [d] + ds[..|ds| - 1];
    }
  }

  lemma {:induction false} FindBelow(ds: seq<Dwell>, top: int, level: int)
    ensures FindDwell(Below(ds, top), level) == if level < top then FindDwell(ds, level) else None
  {
    if ds != [] {
      FindBelow(ds[1..], top, level);
      FindCons(ds[0], ds[1..], level);
      FindCons(ds[0], Below(ds[1..], top), level);
      assert ds == [ds[0]] + ds[1..];
    }
  }

  lemma {:induction false} FindAtOrAbove(ds: seq<Dwell>, bottom: int, level: int)
    ensures FindDwell(AtOrAbove(ds, bottom), level) == if bottom <= level then FindDwell(ds, level) else None
  {
    if ds != [] {
      FindAtOrAbove(ds[1..], bottom, level);
      FindCons(ds[0], ds[1..], level);
      FindCons(ds[0], AtOrAbove(ds[1..], bottom), level);
      assert ds == [ds[0]] + ds[1..];
    }
  }

  lemma FindCrossings(ds: seq<Dwell>, desired: Level, confirmed: Level, revision: int, at: real, level: LowerLevel)
    requires desired <= confirmed
    ensures FindDwell(Crossings(ds, desired, confirmed, revision, at), level) ==
      if desired <= level < confirmed then Some(Crossing(ds, level, revision, at)) else None
  {
    var r := Crossings(ds, desired, confirmed, revision, at);
    assert Contiguous(r, confirmed);
    FindInContiguous(r, confirmed, level);
  }

  // ---- the timers tell what the diary says ----

  predicate SameStart(startedAt: real, revision: int, notes: seq<Note>, i: nat) {
    i < |notes| && notes[i].at == startedAt && notes[i].revision == revision
  }

  predicate DwellTells(d: Option<Dwell>, notes: seq<Note>, i: Option<nat>) {
    && (d.Some? <==> i.Some?)
    && (d.Some? ==> SameStart(d.value.startedAt, d.value.revision, notes, i.value))
  }

  ghost predicate DwellsTell(ds: seq<Dwell>, notes: seq<Note>, from: int, top: int) {
    forall level: LowerLevel | from <= level < top :: DwellTells(FindDwell(ds, level), notes, DescentStart(notes, level))
  }

  predicate UpshiftTells(u: Option<Upshift>, notes: seq<Note>, held: Level) {
    var i := ClimbStart(notes, held);
    && (u.Some? <==> i.Some?)
    && (u.Some? ==> SameStart(u.value.startedAt, u.value.revision, notes, i.value))
  }

  /** The deferred reading is the newest note, parked. */
  predicate DeferredTells(d: Option<Deferred>, o: Options, k: Diary) {
    && (d.Some? <==> k.parked)
    && (k.parked ==>
          && k.flying.Some? && k.notes != []
          && k.notes[|k.notes| - 1] == Note(LevelForPm25(d.value.pm25, o), d.value.revision, d.value.observedAt, Parked, None)
          && Sending(k.notes[..|k.notes| - 1]))
  }

  function FlyingMode(k: Diary): Option<FanMode> {
    if k.flying.Some? then Some(ModeForLevel(k.flying.value)) else None
  }

  ghost predicate TimersTell(k: Diary, s: PolicyState) {
    if k.flying.Some? then Sending(k.notes) && DwellsTell(s.downshifts, k.notes, 1, 5)
    else k.held.Some? ==> DwellsTell(s.downshifts, k.notes, 1, k.held.value) && UpshiftTells(s.upshift, k.notes, k.held.value)
  }

  ghost predicate Tells(k: Diary, o: Options, s: PolicyState) {
    && k.held == s.confirmedLevel && k.newest == s.lastRevision && s.pendingTarget == FlyingMode(k)
    && (k.flying.None? ==> k.failed == s.failedLevel)
    && InOrder(k.notes, k.newest) && DeferredTells(s.deferred, o, k) && TimersTell(k, s)
  }

  // ---- a command is sent ----

  /** The reading sends a command to its own level: everything starts afresh. */
  lemma OwnLevelTells(notes: seq<Note>, note: Note)
    requires note.use == Weighed && note.sent == Some(note.level)
    ensures Sending(notes + [note]) && DwellsTell([], notes + [note], 1, 5)
  {
    forall level: LowerLevel
      ensures DescentStart(notes + [note], level).None?
    {
      DescentGrows(notes, note, level);
    }
  }

  /** A failed downshift is repeated: the dwells below it stay as they are. */
  lemma RepetitionTells(ds: seq<Dwell>, notes: seq<Note>, note: Note, failed: Level, held: Level)
    requires failed < held && DwellsTell(ds, notes, 1, held) && note.use == Spent && note.sent == Some(failed)
    ensures Sending(notes + [note]) && DwellsTell(Below(ds, failed), notes + [note], 1, 5)
  {
    forall level: LowerLevel
      ensures DwellTells(FindDwell(Below(ds, failed), level), notes + [note], DescentStart(notes + [note], level))
    {
      DescentGrows(notes, note, level);
      FindBelow(ds, failed, level);
      if level < failed {
        assert DwellTells(FindDwell(ds, level), notes, DescentStart(notes, level));
      }
    }
  }

  /** The dwells of a descending reading, before any command. */
  lemma CrossingsTell(ds: seq<Dwell>, notes: seq<Note>, note: Note, held: Level)
    requires note.level <= held && DwellsTell(ds, notes, note.level, held) && note.use == Weighed && note.sent.None?
    ensures DwellsTell(Crossings(ds, note.level, held, note.revision, note.at), notes + [note], 1, held)
  {
    var all, r := notes + [note], Crossings(ds, note.level, held, note.revision, note.at);
    forall level: LowerLevel | level < held
      ensures DwellTells(FindDwell(r, level), all, DescentStart(all, level))
    {
      DescentGrows(notes, note, level);
      FindCrossings(ds, note.level, held, note.revision, note.at, level);
      if note.level <= level {
        assert DwellTells(FindDwell(ds, level), notes, DescentStart(notes, level));
        assert all[|notes|] == note;
      }
    }
  }

  /** A matured dwell is a descent that is due. */
  lemma MaturedIsDue(d: Dwell, notes: seq<Note>, o: Options)
    requires notes != [] && DwellTells(Some(d), notes, DescentStart(notes, d.level))
    requires forall i | 0 <= i < |notes| - 1 :: notes[i].revision < notes[|notes| - 1].revision
    ensures Matured(d, o, notes[|notes| - 1].revision, notes[|notes| - 1].at) <==> DescentDue(notes, o, d.level)
  {
  }

  lemma EachIsDue(r: seq<Dwell>, notes: seq<Note>, o: Options, held: Level, i: nat)
    requires notes != [] && notes[|notes| - 1].level <= held && i < |r|
    requires Contiguous(r, held) && |r| == held - notes[|notes| - 1].level && DwellsTell(r, notes, 1, held)
    requires forall i | 0 <= i < |notes| - 1 :: notes[i].revision < notes[|notes| - 1].revision
    ensures var now := notes[|notes| - 1];
      r[i].level == now.level + i && (Matured(r[i], o, now.revision, now.at) <==> DescentDue(notes, o, r[i].level))
  {
    FindInContiguous(r, held, r[i].level);
    assert DwellTells(FindDwell(r, r[i].level), notes, DescentStart(notes, r[i].level));
    MaturedIsDue(r[i], notes, o);
  }

  /** The least level with a property, found in two ways. */
  lemma LeastIsUnique(r: seq<Dwell>, notes: seq<Note>, o: Options, from: Level, held: Level, revision: int, at: real)
    requires notes != [] && from <= held && |r| == held - from
    requires forall i | 0 <= i < |r| ::
      r[i].level == from + i && (Matured(r[i], o, revision, at) <==> DescentDue(notes, o, r[i].level))
    ensures LowestMatured(r, o, revision, at) == LowestDue(notes, o, from, held)
  {
    LowestMaturedIs(r, o, revision, at);
    var m, due := LowestMatured(r, o, revision, at), LowestDue(notes, o, from, held);
    if m.Some? {
      var d :| d in r && d.level == m.value && Matured(d, o, revision, at);
      assert from <= m.value < held && DescentDue(notes, o, m.value);
    }
    if due.Some? {
      assert r[due.value - from] in r && Matured(r[due.value - from], o, revision, at);
    }
  }

  /** The lowest matured dwell is the lowest descent that is due. */
  lemma LowestIsDue(r: seq<Dwell>, notes: seq<Note>, o: Options, held: Level)
    requires notes != [] && notes[|notes| - 1].level <= held
    requires Contiguous(r, held) && |r| == held - notes[|notes| - 1].level && DwellsTell(r, notes, 1, held)
    requires forall i | 0 <= i < |notes| - 1 :: notes[i].revision < notes[|notes| - 1].revision
    ensures LowestMatured(r, o, notes[|notes| - 1].revision, notes[|notes| - 1].at)
         == LowestDue(notes, o, notes[|notes| - 1].level, held)
  {
    var now := notes[|notes| - 1];
    forall i | 0 <= i < |r|
      ensures r[i].level == now.level + i && (Matured(r[i], o, now.revision, now.at) <==> DescentDue(notes, o, r[i].level))
    {
      EachIsDue(r, notes, o, held, i);
    }
    LeastIsUnique(r, notes, o, now.level, held, now.revision, now.at);
  }

  /** A downward command keeps exactly the dwells below its target. */
  lemma DescentTells(r: seq<Dwell>, notes: seq<Note>, note: Note, held: Level, target: LowerLevel)
    requires note.level <= target < held && note.use == Weighed && note.sent.None?
    requires DwellsTell(r, notes + [note], 1, held)
    ensures Sending(notes + [note.(sent := Some(target))])
    ensures DwellsTell(Below(r, target), notes + [note.(sent := Some(target))], 1, 5)
  {
    var all := notes + [note.(sent := Some(target))];
    forall level: LowerLevel
      ensures DwellTells(FindDwell(Below(r, target), level), all, DescentStart(all, level))
    {
      DescentGrows(notes, note, level);
      DescentGrows(notes, note.(sent := Some(target)), level);
      FindBelow(r, target, level);
      if level < target {
        assert DwellTells(FindDwell(r, level), notes + [note], DescentStart(notes + [note], level));
      }
    }
  }

  // ---- one reading is weighed ----

  /** The policy is idle and tells the diary, as far as this reading leaves it standing. */
  ghost predicate Ready(k: Diary, s: PolicyState, note: Note) {
    && Inv(s) && k.held == s.confirmedLevel && k.newest == s.lastRevision && k.failed == s.failedLevel
    && k.flying.None? && s.pendingTarget.None? && !k.parked && s.deferred.None?
    && note.use == Weighed && note.sent.None?
    && k.newest.Some? && note.revision <= k.newest.value
    && InOrder(k.notes, k.newest) && (forall i | 0 <= i < |k.notes| :: k.notes[i].revision < note.revision)
    && (k.held.Some? ==>
          && DwellsTell(s.downshifts, k.notes, if k.failed.Some? then 1 else note.level, k.held.value)
          && UpshiftTells(s.upshift, k.notes, k.held.value))
  }

  function Wrote(k: Diary, note: Note, use: Use, sent: Option<Level>): Diary {
    k.(notes := k.notes + [note.(use := use, sent := sent)], flying := sent, failed := None)
  }

  /** The policy sends what the diary sends and goes on telling it. */
  ghost predicate Agrees(k: Diary, o: Options, r: PolicyResult, sent: Option<Level>) {
    r.target == (if sent.Some? then Some(ModeForLevel(sent.value)) else None) && Tells(k, o, r.state)
  }

  lemma SentAgrees(k: Diary, o: Options, s: PolicyState, note: Note, use: Use, level: Level, ds: seq<Dwell>)
    requires Ready(k, s, note)
    requires var all := k.notes + [note.(use := use, sent := Some(level))]; Sending(all) && DwellsTell(ds, all, 1, 5)
    ensures var t := s.(upshift := None, downshifts := ds, pendingTarget := Some(ModeForLevel(level)));
      Tells(Wrote(k, note, use, Some(level)), o, t)
  {
  }

  /** A command to the reading's own level drops every dwell. */
  lemma OwnLevelAgrees(k: Diary, o: Options, s: PolicyState, note: Note)
    requires Ready(k, s, note)
    requires k.held.None? || note.level > k.held.value || s.downshifts == []
    ensures Agrees(Wrote(k, note, Weighed, Some(note.level)), o, Emit(s, o, note.level), Some(note.level))
  {
    OwnLevelTells(k.notes, note.(sent := Some(note.level)));
    SentAgrees(k, o, s, note, Weighed, note.level, []);
  }

  lemma RepetitionAgrees(k: Diary, o: Options, s: PolicyState, note: Note, failed: Level)
    requires Ready(k, s, note) && k.held.Some? && k.failed == Some(failed) && failed < k.held.value
    ensures Agrees(Wrote(k, note, Spent, Some(failed)), o, Emit(s, o, failed), Some(failed))
  {
    RepetitionTells(s.downshifts, k.notes, note.(use := Spent, sent := Some(failed)), failed, k.held.value);
    SentAgrees(k, o, s, note, Spent, failed, Below(s.downshifts, failed));
  }

  /** A reading that sends nothing leaves these timers. */
  lemma QuietAgrees(k: Diary, o: Options, s: PolicyState, note: Note, ds: seq<Dwell>, u: Option<Upshift>)
    requires Ready(k, s, note) && k.held.Some?
    requires DwellsTell(ds, k.notes + [note], 1, k.held.value) && UpshiftTells(u, k.notes + [note], k.held.value)
    ensures Tells(Wrote(k, note, Weighed, None), o, ClearFailure(s).(upshift := u, downshifts := ds))
  {
    assert note.(use := Weighed, sent := None) == note;
  }

  /** Air at or above the held level ends every descent. */
  lemma NoDescentTells(notes: seq<Note>, note: Note, held: Level)
    requires note.level >= held && note.use == Weighed
    ensures DwellsTell([], notes + [note], 1, held)
  {
    forall level: LowerLevel | level < held
      ensures DescentStart(notes + [note], level).None?
    {
      DescentGrows(notes, note, level);
    }
  }

  lemma HeldLevelAgrees(k: Diary, o: Options, s: PolicyState, note: Note)
    requires Ready(k, s, note) && k.held == Some(note.level)
    ensures Agrees(Wrote(k, note, Weighed, None), o, Quiet(ClearFailure(s).(upshift := None, downshifts := []), o), None)
  {
    NoDescentTells(k.notes, note, note.level);
    ClimbGrows(k.notes, note, note.level);
    QuietAgrees(k, o, s, note, [], None);
  }

  lemma ClimbAgrees(k: Diary, o: Options, s: PolicyState, note: Note, held: Level)
    requires Ready(k, s, note) && k.held == Some(held) && note.level > held
    requires k.failed.None? || k.failed.value < held
    ensures var r := Hysteresis(ClearFailure(s), o, held, note.level, note.revision, note.at);
      var sent := if ClimbDue(k.notes + [note], o, held) then Some(note.level) else None;
      Agrees(Wrote(k, note, Weighed, sent), o, r, sent)
  {
    var all := k.notes + [note];
    ClimbGrows(k.notes, note, held);
    NoDescentTells(k.notes, note, held);
    var t := ClearFailure(s).(downshifts := []);
    var start := ClimbStart(all, held).value;
    assert all[start] == if start < |k.notes| then k.notes[start] else note;
    var r := Hysteresis(ClearFailure(s), o, held, note.level, note.revision, note.at);
    if ClimbDue(all, o, held) {
      assert r == Emit(t, o, note.level);
      OwnLevelTells(k.notes, note.(sent := Some(note.level)));
      SentAgrees(k, o, s, note, Weighed, note.level, []);
      assert Tells(Wrote(k, note, Weighed, Some(note.level)), o, r.state);
    } else {
      QuietAgrees(k, o, s, note, [], if s.upshift.Some? then s.upshift else Some(Upshift(note.revision, note.at, false)));
    }
  }

  lemma DescentAgrees(k: Diary, o: Options, s: PolicyState, note: Note, held: Level)
    requires Ready(k, s, note) && k.held == Some(held) && note.level < held
    requires k.failed.None? || k.failed.value < held
    ensures var r := Hysteresis(ClearFailure(s), o, held, note.level, note.revision, note.at);
      var sent := LowestDue(k.notes + [note], o, note.level, held);
      Agrees(Wrote(k, note, Weighed, sent), o, r, sent)
  {
    var all := k.notes + [note];
    var ds := Crossings(s.downshifts, note.level, held, note.revision, note.at);
    CrossingsTell(s.downshifts, k.notes, note, held);
    LowestIsDue(ds, all, o, held);
    var sent := LowestDue(all, o, note.level, held);
    if sent.Some? {
      DescentTells(ds, k.notes, note, held, sent.value);
      SentAgrees(k, o, s, note, Weighed, sent.value, Below(ds, sent.value));
      assert note.(use := Weighed, sent := sent) == note.(sent := Some(sent.value));
    } else {
      ClimbGrows(k.notes, note, held);
      QuietAgrees(k, o, s, note, ds, None);
    }
  }

  lemma WeighingAgrees(k: Diary, o: Options, s: PolicyState, note: Note)
    requires Ready(k, s, note)
    ensures var (m, sent) := Weigh(k, o, note);
      Agrees(m, o, EvaluateAccepted(s, o, note.level, note.revision, note.at), sent)
  {
    if k.held.None? {
      OwnLevelAgrees(k, o, s, note);
    } else {
      var held := k.held.value;
      if k.failed.Some? && k.failed.value < held && note.level <= k.failed.value {
        RepetitionAgrees(k, o, s, note, k.failed.value);
      } else if k.failed.Some? && k.failed.value > held && note.level != held {
        OwnLevelAgrees(k, o, s, note);
      } else if note.level == held {
        HeldLevelAgrees(k, o, s, note);
        assert LowestDue(k.notes + [note], o, held, held).None?;
      } else if note.level > held {
        ClimbAgrees(k, o, s, note, held);
      } else {
        DescentAgrees(k, o, s, note, held);
      }
      assert s.failedLevel.None? ==> ClearFailure(s) == s;
    }
  }

  // ---- every operation ----

  lemma ObservationAgrees(k: Diary, o: Options, s: PolicyState, pm25: Option<int>, revision: int, at: real)
    requires Inv(s) && Tells(k, o, s)
    ensures var (m, sent) := Next(k, o, Observe(pm25, revision, at));
      Agrees(m, o, EvaluateObservation(s, o, pm25, revision, at), sent)
  {
    if Accepts(s, o, pm25, revision, at) {
      var note := Note(LevelForPm25(pm25.value, o), revision, at, Weighed, None);
      if k.flying.Some? {
        ParkingAgrees(k, o, s, pm25.value, revision, at);
      } else {
        WeighingAgrees(k.(newest := Some(revision)), o, s.(lastRevision := Some(revision)), note);
      }
    }
  }

  /** A parked reading drops the dwells below it. */
  lemma ParkingTells(ds: seq<Dwell>, notes: seq<Note>, note: Note)
    requires DwellsTell(ds, notes, 1, 5) && note.use == Parked && note.sent.None?
    ensures DwellsTell(AtOrAbove(ds, note.level), notes + [note], 1, 5)
  {
    var r, all := AtOrAbove(ds, note.level), notes + [note];
    forall level: LowerLevel
      ensures DwellTells(FindDwell(r, level), all, DescentStart(all, level))
    {
      DescentGrows(notes, note, level);
      FindAtOrAbove(ds, note.level, level);
      assert DwellTells(FindDwell(ds, level), notes, DescentStart(notes, level));
    }
  }

  lemma ParkingAgrees(k: Diary, o: Options, s: PolicyState, pm25: Pm25, revision: int, at: real)
    requires Inv(s) && Tells(k, o, s) && k.flying.Some? && Accepts(s, o, Some(pm25), revision, at)
    ensures var (m, sent) := Next(k, o, Observe(Some(pm25), revision, at));
      Agrees(m, o, EvaluateObservation(s, o, Some(pm25), revision, at), sent)
  {
    var note := Note(LevelForPm25(pm25, o), revision, at, Parked, None);
    var all := k.notes + [note];
    assert all[..|all| - 1] == k.notes;
    ParkingTells(s.downshifts, k.notes, note);
  }

  /** What the acknowledged command leaves behind. */
  lemma ConfirmationReadies(k: Diary, o: Options, s: PolicyState)
    requires Inv(s) && Tells(k, o, s) && k.flying.Some?
    ensures var mode := ModeForLevel(k.flying.value);
      && s.pendingTarget == Some(mode) && ConfirmPending(s, mode).Ok?
      && var c := ConfirmPending(s, mode).value.(deferred := None);
        && Inv(c) && c.confirmedLevel == k.flying && c.failedLevel.None? && c.pendingTarget.None?
        && c.lastRevision == s.lastRevision && c.upshift.None?
        && DwellsTell(c.downshifts, k.notes, 1, k.flying.value)
  {
    ModeAndLevelAreInverse(k.flying.value, Auto);
    ConfirmationKeeps(s, ModeForLevel(k.flying.value));
    forall level: LowerLevel | level < k.flying.value
      ensures DwellTells(FindDwell(Below(s.downshifts, k.flying.value), level), k.notes, DescentStart(k.notes, level))
    {
      FindBelow(s.downshifts, k.flying.value, level);
      assert DwellTells(FindDwell(s.downshifts, level), k.notes, DescentStart(k.notes, level));
    }
  }

  /** Nothing parked: the timers go on from the level just reached. */
  lemma PlainConfirmationAgrees(k: Diary, o: Options, s: PolicyState, mode: FanMode)
    requires Inv(s) && Tells(k, o, s) && s.pendingTarget == Some(mode) && !k.parked
    ensures var (m, sent) := Next(k, o, Acknowledge(mode)); Agrees(m, o, Step(s, o, Acknowledge(mode)), sent)
  {
    ConfirmationReadies(k, o, s);
    SendingStopsTheClimb(k.notes, k.flying.value);
  }

  /** The notes without the parked one tell the same as far as it leaves them standing. */
  lemma UnparkingTells(ds: seq<Dwell>, notes: seq<Note>, top: int)
    requires notes != [] && notes[|notes| - 1].use == Parked && notes[|notes| - 1].sent.None?
    requires DwellsTell(ds, notes, 1, top)
    ensures DwellsTell(ds, notes[..|notes| - 1], notes[|notes| - 1].level, top)
  {
    var n := |notes| - 1;
    assert notes == notes[..n] + [notes[n]];
    forall level: LowerLevel | notes[n].level <= level < top
      ensures DwellTells(FindDwell(ds, level), notes[..n], DescentStart(notes[..n], level))
    {
      DescentGrows(notes[..n], notes[n], level);
      assert DwellTells(FindDwell(ds, level), notes, DescentStart(notes, level));
    }
  }

  /** The parked reading is weighed against the level just reached. */
  lemma ReconciliationAgrees(k: Diary, o: Options, s: PolicyState, mode: FanMode)
    requires Inv(s) && Tells(k, o, s) && s.pendingTarget == Some(mode) && k.parked
    ensures var (m, sent) := Next(k, o, Acknowledge(mode)); Agrees(m, o, Step(s, o, Acknowledge(mode)), sent)
  {
    ConfirmationReadies(k, o, s);
    var c := ConfirmPending(s, mode).value.(deferred := None);
    UnparkingTells(c.downshifts, k.notes, k.flying.value);
    SendingStopsTheClimb(Unparked(k).notes, k.flying.value);
    WeighingAgrees(Unparked(k), o, c, Reweighed(k));
  }

  lemma AcknowledgementAgrees(k: Diary, o: Options, s: PolicyState, mode: FanMode)
    requires Inv(s) && Tells(k, o, s)
    ensures var (m, sent) := Next(k, o, Acknowledge(mode)); Agrees(m, o, Step(s, o, Acknowledge(mode)), sent)
  {
    if s.pendingTarget == Some(mode) {
      if k.parked {
        ReconciliationAgrees(k, o, s, mode);
      } else {
        PlainConfirmationAgrees(k, o, s, mode);
      }
    }
  }

  lemma FailureAgrees(k: Diary, o: Options, s: PolicyState)
    requires Inv(s) && Tells(k, o, s)
    ensures var (m, sent) := Next(k, o, Fail); Agrees(m, o, Step(s, o, Fail), sent)
  {
    if k.flying.Some? {
      ModeAndLevelAreInverse(k.flying.value, Auto);
      if k.held.Some? {
        SendingStopsTheClimb(k.notes, k.held.value);
      }
    }
  }

  /** The record of requested samples is of no consequence. */
  lemma StrippedTells(k: Diary, o: Options, s: PolicyState, t: PolicyState)
    requires Tells(k, o, s) && Strip(t) == Strip(s)
    ensures Tells(k, o, t)
  {
    forall level: LowerLevel
      ensures var a, b := FindDwell(s.downshifts, level), FindDwell(t.downshifts, level);
        && (a.Some? <==> b.Some?)
        && (a.Some? ==> a.value.startedAt == b.value.startedAt && a.value.revision == b.value.revision)
    {
      FindStrip(s.downshifts, level);
      FindStrip(t.downshifts, level);
    }
    assert s.confirmedLevel == Strip(s).confirmedLevel && t.confirmedLevel == Strip(t).confirmedLevel;
    assert StripUpshift(s.upshift) == StripUpshift(t.upshift);
    assert forall level: LowerLevel, i: Option<nat> ::
      DwellTells(FindDwell(s.downshifts, level), k.notes, i) == DwellTells(FindDwell(t.downshifts, level), k.notes, i);
  }

  lemma BlankTells(o: Options, s: PolicyState, mode: Option<FanMode>)
    ensures Tells(Blank(mode, s.lastRevision), o, Rebase(s, mode))
  {
  }

  lemma StepAgrees(k: Diary, o: Options, s: PolicyState, op: Op)
    requires Inv(s) && Tells(k, o, s)
    ensures var (m, sent) := Next(k, o, op); Agrees(m, o, Step(s, o, op), sent)
  {
    match op
    case Observe(pm25, revision, at) => ObservationAgrees(k, o, s, pm25, revision, at);
    case Acknowledge(mode) => AcknowledgementAgrees(k, o, s, mode);
    case Fail => FailureAgrees(k, o, s);
    case Boundary(now) =>
      TimersOnlyMark(s, o, now);
      StrippedTells(k, o, s, Step(s, o, op).state);
    case Forget => BlankTells(o, s, None);
    case Rebased(mode) => BlankTells(o, s, mode);
  }

  lemma {:induction false} RunTells(mode: Option<FanMode>, o: Options, ops: seq<Op>)
    ensures Tells(Written(mode, o, ops), o, Run(InitialState(mode), o, ops))
  {
    if ops != [] {
      var n := |ops| - 1;
      RunTells(mode, o, ops[..n]);
      ReachableStatesSatisfyInv(mode, o, ops[..n]);
      StepAgrees(Written(mode, o, ops[..n]), o, Run(InitialState(mode), o, ops[..n]), ops[n]);
    }
  }

  /** In every run, failures included, an operation sends exactly the command that the diary
    * of all readings calls for. */
  lemma PolicyFollowsTheDiary(mode: Option<FanMode>, o: Options, ops: seq<Op>, op: Op)
    ensures var sent := Next(Written(mode, o, ops), o, op).1;
      Step(Run(InitialState(mode), o, ops), o, op).target == if sent.Some? then Some(ModeForLevel(sent.value)) else None
  {
    RunTells(mode, o, ops);
    ReachableStatesSatisfyInv(mode, o, ops);
    StepAgrees(Written(mode, o, ops), o, Run(InitialState(mode), o, ops), op);
  }
}
