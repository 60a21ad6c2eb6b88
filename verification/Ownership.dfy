/** Exclusive process-wide ownership of purifier addresses, by capability tokens. Tasks
  * are named by numbers; which of them have ended is part of the environment. */
module Ownership {
  import opened Models

  datatype OwnershipState = Owned | CancellationRequested | LateCleanup | StandaloneCleanup

  datatype Token = Token(address: string, serial: nat)

  datatype Record = Record(
    token: Token,
    state: OwnershipState,
    releaseRequested: bool,
    cleanupRequired: bool,
    tasks: set<nat>)

  datatype Registry = Registry(records: map<string, Record>, serial: nat, done: set<nat>)

  const EMPTY_REGISTRY := Registry(map[], 0, {})

  // ---- address normalization ----

  predicate IsSpace(c: char) {
    c == ' ' || c == '\t' || c == '\n' || c == '\r'
  }

  function StripLeft(s: string): string {
    if s != [] && IsSpace(s[0]) then StripLeft(s[1..]) else s
  }

  function StripRight(s: string): string {
    if s != [] && IsSpace(s[|s| - 1]) then StripRight(s[..|s| - 1]) else s
  }

  function UpperChar(c: char): char {
    if 'a' <= c <= 'z' then c - 'a' + 'A' else c
  }

  function Upper(s: string): string {
    seq(|s|, i requires 0 <= i < |s| => UpperChar(s[i]))
  }

  function Normalize(address: string): string {
    Upper(StripRight(StripLeft(address)))
  }

  /** Nothing but blanks. */
  predicate Blanks(s: string) {
    forall i | 0 <= i < |s| :: IsSpace(s[i])
  }

  lemma {:induction false} StripLeftSkips(blanks: string, s: string)
    requires Blanks(blanks)
    ensures StripLeft(blanks + s) == StripLeft(s)
  {
    if blanks == [] {
      assert blanks + s == s;
    } else {
      assert (blanks + s)[1..] == blanks[1..] + s;
      StripLeftSkips(blanks[1..], s);
    }
  }

  lemma {:induction false} StripRightSkips(s: string, blanks: string)
    requires Blanks(blanks)
    ensures StripRight(s + blanks) == StripRight(s)
  {
    if blanks == [] {
      assert s + blanks == s;
    } else {
      assert (s + blanks)[..|s + blanks| - 1] == s + blanks[..|blanks| - 1];
      StripRightSkips(s, blanks[..|blanks| - 1]);
    }
  }

  /** The string neither begins nor ends with a blank. */
  predicate Trimmed(s: string) {
    s == [] || (!IsSpace(s[0]) && !IsSpace(s[|s| - 1]))
  }

  /** Two characters are one letter in either case, or the same. */
  predicate SameLetter(a: char, b: char) {
    a == b || (('a' <= a <= 'z' || 'A' <= a <= 'Z') && (a as int - b as int == 32 || b as int - a as int == 32)
               && ('a' <= b <= 'z' || 'A' <= b <= 'Z'))
  }

  predicate SameLetters(s: string, t: string) {
    |s| == |t| && forall i | 0 <= i < |s| :: SameLetter(s[i], t[i])
  }

  lemma TrimmedStays(left: string, s: string, right: string)
    requires Blanks(left) && Blanks(right) && Trimmed(s)
    ensures Normalize(left + s + right) == Upper(s)
  {
    assert left + s + right == left + (s + right);
    StripLeftSkips(left, s + right);
    if s == [] {
      assert s + right == right + [];
      StripLeftSkips(right, []);
    } else {
      assert (s + right)[0] == s[0];
      StripRightSkips(s, right);
    }
  }

  lemma UpperTells(s: string, t: string)
    ensures Upper(s) == Upper(t) <==> SameLetters(s, t)
  {
    if Upper(s) == Upper(t) {
      forall i | 0 <= i < |s|
        ensures SameLetter(s[i], t[i])
      {
        assert Upper(s)[i] == Upper(t)[i];
      }
    }
  }

  /** Two addresses are one exactly if, apart from outer blanks, they agree up to the case of
    * their letters. */
  lemma AddressesAgree(left: string, s: string, right: string, before: string, t: string, after: string)
    requires Blanks(left) && Blanks(right) && Blanks(before) && Blanks(after) && Trimmed(s) && Trimmed(t)
    ensures Normalize(left + s + right) == Normalize(before + t + after) <==> SameLetters(s, t)
  {
    TrimmedStays(left, s, right);
    TrimmedStays(before, t, after);
    UpperTells(s, t);
  }

  lemma {:induction false} StripLeftTrims(s: string)
    ensures StripLeft(s) == [] || !IsSpace(StripLeft(s)[0])
  {
    if s != [] && IsSpace(s[0]) {
      StripLeftTrims(s[1..]);
    }
  }

  lemma {:induction false} StripRightTrims(s: string)
    requires s == [] || !IsSpace(s[0])
    ensures Trimmed(StripRight(s))
  {
    if s != [] && IsSpace(s[|s| - 1]) {
      StripRightTrims(s[..|s| - 1]);
    }
  }

  lemma UpperStays(s: string)
    requires Trimmed(s)
    ensures Trimmed(Upper(s)) && Upper(Upper(s)) == Upper(s)
  {
  }

  lemma TrimmedIsNormal(s: string)
    requires Trimmed(s)
    ensures Normalize(s) == Upper(s)
  {
    TrimmedStays([], s, []);
    assert [] + s + [] == s;
  }

  /** A normalized address is its own normal form. */
  lemma NormalFormsStay(s: string)
    ensures Normalize(Normalize(s)) == Normalize(s)
  {
    var t := StripRight(StripLeft(s));
    StripLeftTrims(s);
    StripRightTrims(StripLeft(s));
    UpperStays(t);
    TrimmedIsNormal(Upper(t));
  }

  // ---- the registry ----

  predicate Quiescent(r: Record, done: set<nat>) {
    r.releaseRequested && !r.cleanupRequired && r.tasks <= done
  }

  function ReleaseIfQuiescent(g: Registry, address: string): Registry {
    if address in g.records && Quiescent(g.records[address], g.done) then g.(records := g.records - {address}) else g
  }

  predicate IsCurrent(g: Registry, token: Token) {
    token.address in g.records && g.records[token.address].token == token
  }

  function Claim(g: Registry, address: string): (Registry, Option<Token>) {
    var key := Normalize(address);
    var h := ReleaseIfQuiescent(g, key);
    if key in h.records then (h, None)
    else
      var token := Token(key, h.serial + 1);
      (h.(serial := h.serial + 1, records := h.records[key := Record(token, Owned, false, false, {})]), Some(token))
  }

  function Update(g: Registry, token: Token, r: Record): Registry {
    g.(records := g.records[token.address := r])
  }

  /** What the holder of a token can do to its record. */
  datatype Action = Mark(state: OwnershipState) | Track(task: nat) | RequestRelease | FinishCleanup | TaskDone(task: nat)

  /** What an action does to the record of a current token. */
  function Changed(r: Record, a: Action): Record {
    match a
    case Mark(state) => r.(state := state, cleanupRequired := true)
    case Track(task) => r.(tasks := r.tasks + {task})
    case RequestRelease => r.(releaseRequested := true)
    case FinishCleanup => r.(cleanupRequired := false)
    case TaskDone(task) => r.(tasks := r.tasks - {task})
  }

  function Act(g: Registry, token: Token, a: Action): Registry {
    if !IsCurrent(g, token) then g
    else
      var u := Update(g, token, Changed(g.records[token.address], a));
      if a.Mark? || a.Track? then u else ReleaseIfQuiescent(u, token.address)
  }

  datatype Event =
    | Claimed(address: string)
    | Acted(token: Token, action: Action)
    | Looked(address: string)
    | TaskEnded(task: nat)

  /** A done callback runs only for a task that has ended, and marking means one of the
    * three cleanup states. */
  predicate Possible(g: Registry, a: Action) {
    (a.TaskDone? ==> a.task in g.done) && (a.Mark? ==> a.state != Owned)
  }

  function Step(g: Registry, e: Event): Registry {
    match e
    case Claimed(address) => Claim(g, address).0
    case Acted(token, a) => if Possible(g, a) then Act(g, token, a) else g
    case Looked(address) => ReleaseIfQuiescent(g, Normalize(address))
    case TaskEnded(task) => g.(done := g.done + {task})
  }

  function Run(g: Registry, events: seq<Event>): Registry {
    if events == [] then g else Step(Run(g, events[..|events| - 1]), events[|events| - 1])
  }

  // ---- the history of every token ----

  /** What has happened under one token: was its release requested, is cleanup owed, and
    * every task ever tracked under it. */
  datatype Past = Past(address: string, requested: bool, owed: bool, tracked: set<nat>)

  /** The pasts of the tokens 1, 2, ... in order of issue. */
  type History = seq<Past>

  function Remember(p: Past, a: Action): Past {
    match a
    case Mark(_) => p.(owed := true)
    case Track(task) => p.(tracked := p.tracked + {task})
    case RequestRelease => p.(requested := true)
    case FinishCleanup => p.(owed := false)
    case TaskDone(_) => p
  }

  function Extend(h: History, g: Registry, e: Event): History {
    match e
    case Claimed(address) =>
      if Claim(g, address).1.Some? then h + [Past(Normalize(address), false, false, {})] else h
    case Acted(token, a) =>
      if Possible(g, a) && IsCurrent(g, token) && 1 <= token.serial <= |h|
      then h[token.serial - 1 := Remember(h[token.serial - 1], a)] else h
    case _ => h
  }

  function Chronicle(h: History, g: Registry, events: seq<Event>): History {
    if events == [] then h
    else
      var n := |events| - 1;
      Extend(Chronicle(h, g, events[..n]), Run(g, events[..n]), events[n])
  }

  /** Nothing that the owner started is still under way. */
  predicate AtRest(p: Past, done: set<nat>) {
    p.requested && !p.owed && p.tracked <= done
  }

  /** A record agrees with the past of its token. */
  predicate Agrees(r: Record, p: Past, done: set<nat>) {
    && r.token.address == p.address && r.releaseRequested == p.requested && r.cleanupRequired == p.owed
    && r.tasks <= p.tracked && p.tracked <= r.tasks + done
  }

  predicate Recorded(g: Registry, h: History, key: string) {
    key in g.records && g.records[key].token.address == key && 1 <= g.records[key].token.serial <= |h|
    && Agrees(g.records[key], h[g.records[key].token.serial - 1], g.done)
  }

  predicate Placed(g: Registry, h: History, i: nat)
    requires i < |h|
  {
    IsCurrent(g, Token(h[i].address, i + 1)) || AtRest(h[i], g.done)
  }

  /** Every token issued so far is either current, with a record that agrees with its past,
    * or at rest. */
  ghost predicate Inv(g: Registry, h: History) {
    && |h| == g.serial
    && (forall key | key in g.records :: Recorded(g, h, key))
    && (forall i | 0 <= i < |h| :: Placed(g, h, i))
  }

  lemma NewRegistrySatisfiesInv()
    ensures Inv(EMPTY_REGISTRY, [])
  {
  }

  lemma RemovalKeepsInv(g: Registry, h: History, key: string)
    requires Inv(g, h) && key in g.records && Quiescent(g.records[key], g.done)
    ensures Inv(g.(records := g.records - {key}), h)
  {
    var r := g.(records := g.records - {key});
    forall k | k in r.records
      ensures Recorded(r, h, k)
    {
      assert Recorded(g, h, k);
    }
    forall i | 0 <= i < |h|
      ensures Placed(r, h, i)
    {
      assert Placed(g, h, i);
      assert Recorded(g, h, key);
    }
  }

  lemma ReleaseKeepsInv(g: Registry, h: History, key: string)
    requires Inv(g, h)
    ensures Inv(ReleaseIfQuiescent(g, key), h)
  {
    if key in g.records && Quiescent(g.records[key], g.done) {
      RemovalKeepsInv(g, h, key);
    }
  }

  lemma ClaimKeepsInv(g: Registry, h: History, address: string)
    requires Inv(g, h)
    ensures Inv(Step(g, Claimed(address)), Extend(h, g, Claimed(address)))
  {
    var key := Normalize(address);
    ReleaseKeepsInv(g, h, key);
    var m := ReleaseIfQuiescent(g, key);
    if key !in m.records {
      AddKeepsInv(m, h, key, Claim(g, address).0, h + [Past(key, false, false, {})]);
    }
  }

  lemma AddKeepsInv(m: Registry, h: History, key: string, r: Registry, k: History)
    requires Inv(m, h) && key !in m.records
    requires r == m.(serial := m.serial + 1, records := m.records[key := Record(Token(key, m.serial + 1), Owned, false, false, {})])
    requires k == h + [Past(key, false, false, {})]
    ensures Inv(r, k)
  {
    forall x | x in r.records
      ensures Recorded(r, k, x)
    {
      if x != key {
        assert Recorded(m, h, x);
      }
    }
    forall i | 0 <= i < |k|
      ensures Placed(r, k, i)
    {
      if i < |h| {
        assert Placed(m, h, i);
      }
    }
  }

  /** Changing a current record and the past of its token alike. */
  lemma UpdateKeepsInv(g: Registry, h: History, token: Token, r: Record, p: Past, u: Registry, k: History)
    requires Inv(g, h) && IsCurrent(g, token) && 1 <= token.serial <= |h|
    requires r.token == token && Agrees(r, p, g.done)
    requires u == Update(g, token, r) && k == h[token.serial - 1 := p]
    ensures Inv(u, k)
  {
    assert Recorded(g, h, token.address);
    forall key | key in u.records
      ensures Recorded(u, k, key)
    {
      if key != token.address {
        assert Recorded(g, h, key);
      }
    }
    forall i | 0 <= i < |k|
      ensures Placed(u, k, i)
    {
      assert Placed(g, h, i);
    }
  }

  lemma ChangedAgrees(r: Record, p: Past, done: set<nat>, a: Action)
    requires Agrees(r, p, done) && (a.TaskDone? ==> a.task in done)
    ensures Agrees(Changed(r, a), Remember(p, a), done)
  {
  }

  lemma ActKeepsInv(g: Registry, h: History, token: Token, a: Action)
    requires Inv(g, h) && Possible(g, a)
    ensures Inv(Act(g, token, a), Extend(h, g, Acted(token, a)))
  {
    if IsCurrent(g, token) {
      assert Recorded(g, h, token.address);
      var r, p := g.records[token.address], h[token.serial - 1];
      ChangedAgrees(r, p, g.done, a);
      var u := Update(g, token, Changed(r, a));
      UpdateKeepsInv(g, h, token, Changed(r, a), Remember(p, a), u, h[token.serial - 1 := Remember(p, a)]);
      ReleaseKeepsInv(u, h[token.serial - 1 := Remember(p, a)], token.address);
    }
  }

  lemma EndKeepsInv(g: Registry, h: History, task: nat)
    requires Inv(g, h)
    ensures Inv(g.(done := g.done + {task}), h)
  {
    var r := g.(done := g.done + {task});
    forall key | key in r.records
      ensures Recorded(r, h, key)
    {
      assert Recorded(g, h, key);
    }
    forall i | 0 <= i < |h|
      ensures Placed(r, h, i)
    {
      assert Placed(g, h, i);
    }
  }

  lemma StepKeepsInv(g: Registry, h: History, e: Event)
    requires Inv(g, h)
    ensures Inv(Step(g, e), Extend(h, g, e))
  {
    match e
    case Claimed(address) => ClaimKeepsInv(g, h, address);
    case Acted(token, a) =>
      if Possible(g, a) {
        ActKeepsInv(g, h, token, a);
      }
    case Looked(address) => ReleaseKeepsInv(g, h, Normalize(address));
    case TaskEnded(task) => EndKeepsInv(g, h, task);
  }

  lemma {:induction false} RunKeepsInv(g: Registry, h: History, events: seq<Event>)
    requires Inv(g, h)
    ensures Inv(Run(g, events), Chronicle(h, g, events))
  {
    if events != [] {
      var n := |events| - 1;
      RunKeepsInv(g, h, events[..n]);
      StepKeepsInv(Run(g, events[..n]), Chronicle(h, g, events[..n]), events[n]);
    }
  }

  /** Every earlier owner of the address is at rest. */
  predicate AllAtRest(h: History, key: string, done: set<nat>) {
    forall i | 0 <= i < |h| && h[i].address == key :: AtRest(h[i], done)
  }

  lemma ClaimNeedsRest(g: Registry, h: History, address: string)
    requires Inv(g, h)
    ensures Claim(g, address).1.Some? <==> AllAtRest(h, Normalize(address), g.done)
  {
    var key := Normalize(address);
    forall i | 0 <= i < |h| && h[i].address == key
      ensures IsCurrent(g, Token(key, i + 1)) || AtRest(h[i], g.done)
    {
      assert Placed(g, h, i);
    }
    if key in g.records {
      assert Recorded(g, h, key);
      assert Quiescent(g.records[key], g.done) <==> AtRest(h[g.records[key].token.serial - 1], g.done);
    }
  }

  /** Exclusive ownership: in every run of a registry that starts empty a claim succeeds
    * exactly if every earlier owner of the normalized address has asked for release, owes
    * no cleanup, and has no tracked task still running. */
  lemma ClaimsAreExclusive(empty: Registry, events: seq<Event>, address: string)
    requires empty == EMPTY_REGISTRY
    ensures Claim(Run(empty, events), address).1.Some?
      <==> AllAtRest(Chronicle([], empty, events), Normalize(address), Run(empty, events).done)
  {
    NewRegistrySatisfiesInv();
    RunKeepsInv(empty, [], events);
    ClaimNeedsRest(Run(empty, events), Chronicle([], empty, events), address);
  }

  // ---- stale tokens ----

  lemma StaleStep(g: Registry, token: Token, e: Event)
    requires !IsCurrent(g, token) && token.serial <= g.serial
    ensures !IsCurrent(Step(g, e), token) && token.serial <= Step(g, e).serial
    ensures e.Acted? && e.token == token ==> Step(g, e) == g
  {
  }

  /** Once a token is no longer current it never is again, and acting with it changes
    * nothing, whoever owns the address by then. */
  lemma {:induction false} StaleTokensAreInert(g: Registry, token: Token, events: seq<Event>, a: Action)
    requires !IsCurrent(g, token) && token.serial <= g.serial
    ensures var r := Run(g, events);
      !IsCurrent(r, token) && token.serial <= r.serial && Step(r, Acted(token, a)) == r
  {
    if events != [] {
      var n := |events| - 1;
      StaleTokensAreInert(g, token, events[..n], a);
      StaleStep(Run(g, events[..n]), token, events[n]);
    }
  }

  // ---- the mutable registry ----

  class AddressOwnershipRegistry {
    var records: map<string, Record>
    var serial: nat

    ghost function View(done: set<nat>): Registry
      reads this
    {
      Registry(records, serial, done)
    }

    constructor ()
      ensures View({}) == EMPTY_REGISTRY
    {
      records, serial := map[], 0;
    }

    method Release(address: string, done: set<nat>)
      modifies this`records
      ensures View(done) == ReleaseIfQuiescent(old(View(done)), address)
    {
      if address in records && records[address].releaseRequested && !records[address].cleanupRequired
         && records[address].tasks <= done {
        records := records - {address};
      }
    }

    method TryClaim(address: string, done: set<nat>) returns (token: Option<Token>)
      modifies this
      ensures (View(done), token) == Claim(old(View(done)), address)
    {
      var normalized := Normalize(address);
      Release(normalized, done);
      if normalized in records {
        return None;
      }
      serial := serial + 1;
      records := records[normalized := Record(Token(normalized, serial), Owned, false, false, {})];
      return Some(Token(normalized, serial));
    }

    method IsOwned(address: string, done: set<nat>) returns (owned: bool)
      modifies this`records
      ensures View(done) == Step(old(View(done)), Looked(address))
      ensures owned == (Normalize(address) in records)
    {
      Release(Normalize(address), done);
      owned := Normalize(address) in records;
    }

    method MarkState(token: Token, state: OwnershipState, done: set<nat>) returns (marked: bool)
      modifies this`records
      ensures View(done) == Act(old(View(done)), token, Mark(state))
      ensures marked == old(IsCurrent(View(done), token))
    {
      if token.address !in records || records[token.address].token != token {
        return false;
      }
      records := records[token.address := records[token.address].(state := state, cleanupRequired := true)];
      return true;
    }

    method TrackTask(token: Token, task: nat, done: set<nat>) returns (tracked: bool)
      modifies this`records
      ensures View(done) == Act(old(View(done)), token, Track(task))
      ensures tracked == old(IsCurrent(View(done), token))
    {
      if token.address !in records || records[token.address].token != token {
        return false;
      }
      var r := records[token.address];
      records := records[token.address := r.(tasks := r.tasks + {task})];
      return true;
    }

    method RequestReleaseOf(token: Token, done: set<nat>)
      modifies this`records
      ensures View(done) == Act(old(View(done)), token, RequestRelease)
    {
      if token.address !in records || records[token.address].token != token {
        return;
      }
      records := records[token.address := records[token.address].(releaseRequested := true)];
      Release(token.address, done);
    }

    method FinishCleanupOf(token: Token, done: set<nat>)
      modifies this`records
      ensures View(done) == Act(old(View(done)), token, FinishCleanup)
    {
      if token.address !in records || records[token.address].token != token {
        return;
      }
      records := records[token.address := records[token.address].(cleanupRequired := false)];
      Release(token.address, done);
    }

    method OnTaskDone(token: Token, task: nat, done: set<nat>)
      modifies this`records
      ensures View(done) == Act(old(View(done)), token, TaskDone(task))
    {
      if token.address !in records || records[token.address].token != token {
        return;
      }
      var r := records[token.address];
      records := records[token.address := r.(tasks := r.tasks - {task})];
      Release(token.address, done);
    }
  }
}
