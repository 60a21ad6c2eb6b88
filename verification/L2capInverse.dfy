/** Reassembly inverts fragmentation: whatever senders on many links interleave, the
  * receiver returns exactly their units, in order of completion. */
module L2capInverse {
  import opened Models
  import opened L2cap

  // ---- the senders ----

  function LittleEndian(x: int): seq<Octet>
    requires 0 <= x < 65536
  {
    [x % 256, x / 256]
  }

  /** A unit of which some octets have been sent. */
  datatype Flight = Flight(cid: int, sdu: seq<Octet>, sent: nat, indices: seq<nat>, started: real)

  type Flights = map<Link, Flight>

  datatype Sending =
    | Begin(index: nat, stamp: real, link: Link, cid: int, sdu: seq<Octet>, count: nat,
            flag: int, broadcast: int, trailing: seq<Octet>)
    | More(index: nat, stamp: real, link: Link, count: nat, broadcast: int, trailing: seq<Octet>)
    | Other(record: PacketRecord)

  predicate ValidLink(link: Link) {
    (link.0 == ACL_TX || link.0 == ACL_RX) && 0 <= link.1 < 4096
  }

  /** Every flight has octets still to send. */
  predicate Airborne(flights: Flights) {
    forall link | link in flights ::
      ValidLink(link) && flights[link].sent < |flights[link].sdu| < 65536 && 0 <= flights[link].cid < 65536
  }

  /** Other traffic: not ACL data, a start too short for an L2CAP header, the reserved
    * boundary flag, or a continuation on a link with nothing in flight. */
  predicate Unrelated(flights: Flights, record: PacketRecord) {
    if !IsAcl(record) then true
    else
      var flag := Boundary(Word(record.data, 0));
      flag == 3 || ((flag == 0 || flag == 2) && |FragmentOf(record)| < 4)
      || (flag == 1 && LinkOf(record) !in flights)
  }

  /** No new start on a link before its unit is complete, no continuation beyond its end. */
  predicate Allowed(flights: Flights, s: Sending) {
    match s
    case Begin(_, _, link, cid, sdu, count, flag, broadcast, _) =>
      ValidLink(link) && link !in flights && 0 <= cid < 65536 && |sdu| < 65536 && count <= |sdu| && count + 4 < 65536
      && (flag == 0 || flag == 2) && 0 <= broadcast < 4
    case More(_, _, link, count, broadcast, _) =>
      link in flights && flights[link].sent + count <= |flights[link].sdu| && 0 <= broadcast < 4
    case Other(record) => Unrelated(flights, record)
  }

  function Advance(f: Flight, index: nat, count: nat): Flight {
    f.(sent := f.sent + count, indices := f.indices + [index])
  }

  /** The flight a sending concerns, after it. */
  function FlightOf(flights: Flights, s: Sending): Flight
    requires Allowed(flights, s) && !s.Other?
  {
    if s.Begin? then Flight(s.cid, s.sdu, s.count, [s.index], s.stamp)
    else Advance(flights[s.link], s.index, s.count)
  }

  function Fly(flights: Flights, s: Sending): Flights
    requires Allowed(flights, s)
  {
    if s.Other? then flights
    else
      var f := FlightOf(flights, s);
      if f.sent == |f.sdu| then flights - {s.link} else flights[s.link := f]
  }

  /** The unit that a sending completes. */
  function Landed(flights: Flights, s: Sending): seq<Sdu>
    requires Allowed(flights, s)
  {
    if s.Other? then []
    else
      var f := FlightOf(flights, s);
      if f.sent == |f.sdu| then [Sdu(f.indices, f.started, s.link, f.cid, f.sdu)] else []
  }

  function Header(link: Link, flag: int, broadcast: int, length: int): seq<Octet>
    requires ValidLink(link) && 0 <= flag < 4 && 0 <= broadcast < 4 && 0 <= length < 65536
  {
    LittleEndian(link.1 + 4096 * flag + 16384 * broadcast) + LittleEndian(length)
  }

  /** The fragment a sending puts on its link. */
  function Fragment(flights: Flights, s: Sending): seq<Octet>
    requires Allowed(flights, s) && !s.Other?
  {
    if s.Begin? then LittleEndian(|s.sdu|) + LittleEndian(s.cid) + s.sdu[..s.count]
    else flights[s.link].sdu[flights[s.link].sent..flights[s.link].sent + s.count]
  }

  function RecordOf(flights: Flights, s: Sending): PacketRecord
    requires Allowed(flights, s) && Airborne(flights)
  {
    if s.Other? then s.record
    else
      var fragment := Fragment(flights, s);
      var header := Header(s.link, if s.Begin? then s.flag else 1, s.broadcast, |fragment|);
      PacketRecord(s.index, s.stamp, s.link.0, header + fragment + s.trailing)
  }

  // ---- one record ----

  lemma HeaderFields(link: Link, flag: int, broadcast: int, length: int)
    requires ValidLink(link) && 0 <= flag < 4 && 0 <= broadcast < 4 && 0 <= length < 65536
    ensures var word := link.1 + 4096 * flag + 16384 * broadcast;
      0 <= word < 65536 && Handle(word) == link.1 && Boundary(word) == flag
  {
  }

  lemma FramedRecord(link: Link, flag: int, broadcast: int, fragment: seq<Octet>, trailing: seq<Octet>, record: PacketRecord)
    requires ValidLink(link) && 0 <= flag < 4 && 0 <= broadcast < 4 && |fragment| < 65536
    requires record.packetType == link.0
    requires record.data == Header(link, flag, broadcast, |fragment|) + fragment + trailing
    ensures IsAcl(record) && LinkOf(record) == link && FragmentOf(record) == fragment
    ensures Boundary(Word(record.data, 0)) == flag
  {
    HeaderFields(link, flag, broadcast, |fragment|);
    var data := record.data;
    assert Word(data, 0) == link.1 + 4096 * flag + 16384 * broadcast;
    assert Word(data, 2) == |fragment|;
    assert data[4..4 + |fragment|] == fragment;
  }

  /** What the receiver holds of a flight. */
  function Held(f: Flight): Partial
    requires f.sent <= |f.sdu|
  {
    Partial(|f.sdu|, f.cid, f.sdu[..f.sent], f.indices, f.started)
  }

  function PendingOf(flights: Flights): Pending
    requires Airborne(flights)
  {
    map link | link in flights :: Held(flights[link])
  }

  lemma StartGrows(flights: Flights, s: Sending)
    requires Airborne(flights) && Allowed(flights, s) && s.Begin?
    ensures var record := RecordOf(flights, s);
      IsAcl(record) && LinkOf(record) == s.link && !Continues(record)
      && Grown(PendingOf(flights), record) == Some(Held(FlightOf(flights, s)))
  {
    var fragment, record := Fragment(flights, s), RecordOf(flights, s);
    FramedRecord(s.link, s.flag, s.broadcast, fragment, s.trailing, record);
    assert Word(fragment, 0) == |s.sdu| && Word(fragment, 2) == s.cid;
    assert fragment[4..] == s.sdu[..s.count];
  }

  lemma ContinuationGrows(flights: Flights, s: Sending)
    requires Airborne(flights) && Allowed(flights, s) && s.More?
    ensures var record := RecordOf(flights, s);
      IsAcl(record) && LinkOf(record) == s.link && Continues(record)
      && Grown(PendingOf(flights), record) == Some(Held(FlightOf(flights, s)))
  {
    var fragment, record := Fragment(flights, s), RecordOf(flights, s);
    FramedRecord(s.link, 1, s.broadcast, fragment, s.trailing, record);
    var f := flights[s.link];
    assert f.sdu[..f.sent] + fragment == f.sdu[..f.sent + s.count];
  }

  lemma FlyStaysAirborne(flights: Flights, s: Sending)
    requires Airborne(flights) && Allowed(flights, s)
    ensures Airborne(Fly(flights, s))
  {
  }

  /** One record takes the receiver from what is in flight before a sending to what is in
    * flight after it, and completes exactly the unit that the sending completes. */
  lemma ReceiveFollowsSending(flights: Flights, s: Sending)
    requires Airborne(flights) && Allowed(flights, s)
    ensures Airborne(Fly(flights, s))
    ensures Receive(PendingOf(flights), RecordOf(flights, s)) == (PendingOf(Fly(flights, s)), Landed(flights, s))
  {
    FlyStaysAirborne(flights, s);
    if !s.Other? {
      if s.Begin? {
        StartGrows(flights, s);
      } else {
        ContinuationGrows(flights, s);
      }
      PendingFollows(flights, s);
    }
  }

  lemma PendingWith(flights: Flights, link: Link, f: Flight)
    requires Airborne(flights) && Airborne(flights[link := f]) && f.sent <= |f.sdu|
    ensures PendingOf(flights[link := f]) == PendingOf(flights)[link := Held(f)]
  {
  }

  lemma PendingWithout(flights: Flights, link: Link)
    requires Airborne(flights) && Airborne(flights - {link})
    ensures PendingOf(flights - {link}) == PendingOf(flights) - {link}
  {
  }

  lemma PendingFollows(flights: Flights, s: Sending)
    requires Airborne(flights) && Allowed(flights, s) && !s.Other? && Airborne(Fly(flights, s))
    ensures var f := FlightOf(flights, s);
      var rest := if s.Begin? then PendingOf(flights) else PendingOf(flights) - {s.link};
      && f.sent <= |f.sdu|
      && PendingOf(Fly(flights, s)) == (if f.sent < |f.sdu| then rest[s.link := Held(f)] else rest)
      && f.sdu[..|f.sdu|] == f.sdu
  {
    var f := FlightOf(flights, s);
    if f.sent < |f.sdu| {
      PendingWith(flights, s.link, f);
    } else {
      PendingWithout(flights, s.link);
    }
  }

  // ---- whole traces ----

  function InFlight(trace: seq<Sending>): Flights
    requires Valid(trace)
    decreases |trace|, 1
  {
    if trace == [] then map[] else Fly(InFlight(trace[..|trace| - 1]), trace[|trace| - 1])
  }

  /** Every sending is allowed when it happens. */
  predicate Valid(trace: seq<Sending>)
    decreases |trace|, 0
  {
    trace == [] || (Valid(trace[..|trace| - 1]) && Allowed(InFlight(trace[..|trace| - 1]), trace[|trace| - 1]))
  }

  lemma {:induction false} AlwaysAirborne(trace: seq<Sending>)
    requires Valid(trace)
    ensures Airborne(InFlight(trace))
  {
    if trace != [] {
      AlwaysAirborne(trace[..|trace| - 1]);
      FlyStaysAirborne(InFlight(trace[..|trace| - 1]), trace[|trace| - 1]);
    }
  }

  function Records(trace: seq<Sending>): seq<PacketRecord>
    requires Valid(trace)
  {
    if trace == [] then []
    else
      var before := trace[..|trace| - 1];
      AlwaysAirborne(before);
      Records(before) + [RecordOf(InFlight(before), trace[|trace| - 1])]
  }

  /** The units sent, each with the indices of its fragments, in order of completion. */
  function Units(trace: seq<Sending>): seq<Sdu>
    requires Valid(trace)
  {
    if trace == [] then []
    else Units(trace[..|trace| - 1]) + Landed(InFlight(trace[..|trace| - 1]), trace[|trace| - 1])
  }

  /** The receiver's state after a trace: pending units are exactly the flights, and the
    * completed units are exactly those the senders completed. */
  lemma {:induction false} ReassemblyInvertsFragmentation(trace: seq<Sending>)
    requires Valid(trace)
    ensures Airborne(InFlight(trace))
    ensures ReceiveAll(Records(trace)) == (PendingOf(InFlight(trace)), Units(trace))
  {
    if trace != [] {
      var n := |trace| - 1;
      ReassemblyInvertsFragmentation(trace[..n]);
      ReceiveFollowsSending(InFlight(trace[..n]), trace[n]);
      assert Records(trace)[..|Records(trace[..n])|] == Records(trace[..n]);
    }
  }
}
