/** A simple form of the policy: a diary of every accepted reading, from which each decision
  * is made afresh. It keeps no timers, and says outright when a command is due. */
module CustomAutoDiary {
  import opened Models
  import opened CustomAutoPolicy

  /** What became of a reading: weighed against the delays, parked while a command was in
    * flight, or spent on repeating a failed downshift. */
  datatype Use = Weighed | Parked | Spent

  datatype Note = Note(level: Level, revision: int, at: real, use: Use, sent: Option<Level>)

  /** The readings since the level was last set from outside, the level held, the level of
    * the command in flight or failed, whether the newest note is parked behind that command,
    * and the newest revision ever. */
  datatype Diary = Diary(
    notes: seq<Note>, held: Option<Level>, flying: Option<Level>, failed: Option<Level>, parked: bool, newest: Option<int>)

  function Blank(mode: Option<FanMode>, newest: Option<int>): Diary {
    Diary([], LevelForModeOption(mode), None, None, false, newest)
  }

  // ---- since when the air has been better, or worse ----

  /** The note shows worse air than the level, or sent a command to it or below. */
  predicate EndsDescent(note: Note, level: int) {
    (note.use != Spent && note.level > level) || (note.sent.Some? && note.sent.value <= level)
  }

  predicate EndsClimb(note: Note, held: int) {
    note.level <= held || note.sent.Some?
  }

  /** The first weighed reading of those since which the level has sufficed. */
  function DescentStart(notes: seq<Note>, level: int): (r: Option<nat>)
    ensures r.Some? ==> r.value < |notes|
  {
    if notes == [] then None
    else
      var n := |notes| - 1;
      var before := DescentStart(notes[..n], level);
      if EndsDescent(notes[n], level) then None
      else if before.Some? then before
      else if notes[n].use == Weighed then Some(n)
      else None
  }

  /** The first weighed reading of those since which the held level has been too low. */
  function ClimbStart(notes: seq<Note>, held: int): (r: Option<nat>)
    ensures r.Some? ==> r.value < |notes|
  {
    if notes == [] then None
    else
      var n := |notes| - 1;
      var before := ClimbStart(notes[..n], held);
      if EndsClimb(notes[n], held) then None
      else if before.Some? then before
      else if notes[n].use == Weighed then Some(n)
      else None
  }

  // ---- decisions ----

  /** The level has sufficed for its whole delay, by two readings. */
  predicate DescentDue(notes: seq<Note>, o: Options, level: LowerLevel)
    requires notes != []
  {
    var start, n := DescentStart(notes, level), |notes| - 1;
    start.Some? && start.value < n
    && notes[n].at >= notes[start.value].at + o.downshiftMinutes[level - 1] as real * 60.0
  }

  predicate ClimbDue(notes: seq<Note>, o: Options, held: Level)
    requires notes != []
  {
    var start, n := ClimbStart(notes, held), |notes| - 1;
    start.Some? && (o.upshiftSeconds == 0 || notes[n].at >= notes[start.value].at + o.upshiftSeconds as real)
  }

  /** The lowest level that is due, from this one up to the one held. */
  function LowestDue(notes: seq<Note>, o: Options, from: Level, held: Level): (r: Option<Level>)
    requires notes != [] && from <= held
    ensures r.None? ==> forall level: LowerLevel | from <= level < held :: !DescentDue(notes, o, level)
    ensures r.Some? ==>
      from <= r.value < held && DescentDue(notes, o, r.value)
      && forall level: LowerLevel | from <= level < r.value :: !DescentDue(notes, o, level)
    decreases held - from
  {
    if from == held then None
    else if DescentDue(notes, o, from) then Some(from)
    else LowestDue(notes, o, from + 1, held)
  }

  /** The level that the newest of these readings calls for, if one is due. */
  function Due(notes: seq<Note>, o: Options, held: Level): Option<Level>
    requires notes != []
  {
    var level := notes[|notes| - 1].level;
    if level > held then if ClimbDue(notes, o, held) then Some(level) else None
    else LowestDue(notes, o, level, held)
  }

  /** The use that is made of a reading with no command in flight, and what is sent. */
  function Judged(k: Diary, o: Options, note: Note): (Use, Option<Level>) {
    if k.held.None? then (Weighed, Some(note.level))
    else
      var held := k.held.value;
      if k.failed.Some? && k.failed.value < held && note.level <= k.failed.value then (Spent, k.failed)
      else if k.failed.Some? && k.failed.value > held && note.level != held then (Weighed, Some(note.level))
      else (Weighed, Due(k.notes + [note], o, held))
  }

  function Weigh(k: Diary, o: Options, note: Note): (Diary, Option<Level>) {
    var (use, sent) := Judged(k, o, note);
    (k.(notes := k.notes + [note.(use := use, sent := sent)], flying := sent, failed := None), sent)
  }

  /** The command in flight has arrived, and its parked note is taken off to be weighed. */
  function Unparked(k: Diary): Diary
    requires k.notes != []
  {
    k.(held := k.flying, flying := None, failed := None, parked := false, notes := k.notes[..|k.notes| - 1])
  }

  function Reweighed(k: Diary): Note
    requires k.notes != []
  {
    k.notes[|k.notes| - 1].(use := Weighed)
  }

  predicate Legible(k: Diary, o: Options, pm25: Option<int>, revision: int, at: real) {
    && o.enabled && pm25.Some? && 0 <= pm25.value <= 999 && at >= 0.0 && revision >= 0
    && (k.newest.Some? ==> revision > k.newest.value)
  }

  /** The diary after an operation, and the level of the command it sends. */
  function Next(k: Diary, o: Options, op: Op): (Diary, Option<Level>) {
    match op
    case Observe(pm25, revision, at) =>
      if !Legible(k, o, pm25, revision, at) then (k, None)
      else
        var note := Note(LevelForPm25(pm25.value, o), revision, at, Weighed, None);
        var m := k.(newest := Some(revision));
        if k.flying.Some? then (m.(notes := m.notes + [note.(use := Parked)], parked := true), None)
        else Weigh(m, o, note)
    case Acknowledge(mode) =>
      if k.flying.None? || ModeForLevel(k.flying.value) != mode then (k, None)
      else
        var m := k.(held := k.flying, flying := None, failed := None, parked := false);
        if !k.parked || k.notes == [] then (m, None) else Weigh(Unparked(k), o, Reweighed(k))
    case Fail => (if k.flying.None? then k else k.(failed := k.flying, flying := None, parked := false), None)
    case Forget => (Blank(None, k.newest), None)
    case Rebased(mode) => (Blank(mode, k.newest), None)
    case Boundary(_) => (k, None)
  }

  function Written(mode: Option<FanMode>, o: Options, ops: seq<Op>): Diary {
    if ops == [] then Blank(mode, None) else Next(Written(mode, o, ops[..|ops| - 1]), o, ops[|ops| - 1]).0
  }

  // ---- the scans in plain words ----

  /** From the weighed note i on nothing ends the descent to the level. */
  predicate Descends(notes: seq<Note>, level: int, i: nat) {
    i < |notes| && notes[i].use == Weighed && forall j | i <= j < |notes| :: !EndsDescent(notes[j], level)
  }

  predicate Climbs(notes: seq<Note>, held: int, i: nat) {
    i < |notes| && notes[i].use == Weighed && forall j | i <= j < |notes| :: !EndsClimb(notes[j], held)
  }

  /** The scan finds the earliest such note. */
  lemma {:induction false} DescentStartIsFirst(notes: seq<Note>, level: int, i: nat)
    ensures DescentStart(notes, level) == Some(i) <==>
      Descends(notes, level, i) && forall j: nat | j < i :: !Descends(notes, level, j)
    ensures DescentStart(notes, level).None? ==> forall j: nat :: !Descends(notes, level, j)
  {
    if notes != [] {
      var n := |notes| - 1;
      var before := notes[..n];
      forall j: nat
        ensures Descends(notes, level, j) <==>
          !EndsDescent(notes[n], level) && (if j < n then Descends(before, level, j) else j == n && notes[n].use == Weighed)
      {
        if j < n && Descends(notes, level, j) {
          assert forall m | j <= m < n :: before[m] == notes[m];
        }
      }
      DescentStartIsFirst(before, level, i);
      if DescentStart(before, level).Some? {
        DescentStartIsFirst(before, level, DescentStart(before, level).value);
      }
    }
  }

  lemma {:induction false} ClimbStartIsFirst(notes: seq<Note>, held: int, i: nat)
    ensures ClimbStart(notes, held) == Some(i) <==>
      Climbs(notes, held, i) && forall j: nat | j < i :: !Climbs(notes, held, j)
    ensures ClimbStart(notes, held).None? ==> forall j: nat :: !Climbs(notes, held, j)
  {
    if notes != [] {
      var n := |notes| - 1;
      var before := notes[..n];
      forall j: nat
        ensures Climbs(notes, held, j) <==>
          !EndsClimb(notes[n], held) && (if j < n then Climbs(before, held, j) else j == n && notes[n].use == Weighed)
      {
        if j < n && Climbs(notes, held, j) {
          assert forall m | j <= m < n :: before[m] == notes[m];
        }
      }
      ClimbStartIsFirst(before, held, i);
      if ClimbStart(before, held).Some? {
        ClimbStartIsFirst(before, held, ClimbStart(before, held).value);
      }
    }
  }
}
