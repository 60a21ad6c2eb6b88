/** Reassembly of L2CAP service data units from HCI ACL fragments (Bluetooth Core
  * Specification, Vol 4 Part E section 5.4.2 and Vol 3 Part A section 7.2). */
module L2cap {
  import opened Models

  type Octet = x: int | 0 <= x < 256

  const ACL_TX := 2
  const ACL_RX := 3

  datatype PacketRecord = PacketRecord(index: nat, timestamp: real, packetType: int, data: seq<Octet>)

  /** Packet type (hence direction) and connection handle. */
  type Link = (int, int)

  datatype Sdu = Sdu(indices: seq<nat>, timestamp: real, link: Link, cid: int, payload: seq<Octet>)

  /** An SDU under reassembly. */
  datatype Partial = Partial(expected: nat, cid: int, payload: seq<Octet>, indices: seq<nat>, started: real)

  type Pending = map<Link, Partial>

  // ---- little-endian words and header fields ----

  function Word(data: seq<Octet>, at: nat): nat
    requires at + 2 <= |data|
  {
    var low: int, high: int := data[at], data[at + 1];
    low + 256 * high
  }

  function Handle(word: int): int {
    word % 4096
  }

  function Boundary(word: int): int {
    word / 4096 % 4
  }

  function Clip(data: seq<Octet>, from: nat, length: nat): seq<Octet>
    requires from <= |data|
  {
    if from + length <= |data| then data[from..from + length] else data[from..]
  }

  // ---- the receiver ----

  predicate IsAcl(record: PacketRecord) {
    (record.packetType == ACL_TX || record.packetType == ACL_RX) && |record.data| >= 4
  }

  function LinkOf(record: PacketRecord): Link
    requires IsAcl(record)
  {
    (record.packetType, Handle(Word(record.data, 0)))
  }

  function FragmentOf(record: PacketRecord): seq<Octet>
    requires IsAcl(record)
  {
    Clip(record.data, 4, Word(record.data, 2))
  }

  /** The unit that a record starts or continues, if it does either. */
  function Grown(pending: Pending, record: PacketRecord): Option<Partial>
    requires IsAcl(record)
  {
    var flag, fragment := Boundary(Word(record.data, 0)), FragmentOf(record);
    if flag == 0 || flag == 2 then
      if |fragment| < 4 then None
      else Some(Partial(Word(fragment, 0), Word(fragment, 2), fragment[4..], [record.index], record.timestamp))
    else if flag == 1 && LinkOf(record) in pending then
      var p := pending[LinkOf(record)];
      Some(p.(payload := p.payload + fragment, indices := p.indices + [record.index]))
    else None
  }

  predicate Continues(record: PacketRecord)
    requires IsAcl(record)
  {
    Boundary(Word(record.data, 0)) == 1
  }

  /** What one record does: the units still pending and the unit it completes. */
  function Receive(pending: Pending, record: PacketRecord): (Pending, seq<Sdu>) {
    if !IsAcl(record) then (pending, [])
    else
      match Grown(pending, record)
      case None => (pending, [])
      case Some(p) =>
        var link := LinkOf(record);
        var rest := if Continues(record) then pending - {link} else pending;
        if |p.payload| < p.expected then (rest[link := p], [])
        else (rest, [Sdu(p.indices, p.started, link, p.cid, p.payload[..p.expected])])
  }

  function ReceiveAll(records: seq<PacketRecord>): (Pending, seq<Sdu>) {
    if records == [] then (map[], [])
    else
      var (pending, sdus) := ReceiveAll(records[..|records| - 1]);
      var (after, more) := Receive(pending, records[|records| - 1]);
      (after, sdus + more)
  }

  /** The extractor's loop over all records. */
  method Reassemble(records: seq<PacketRecord>) returns (sdus: seq<Sdu>)
    ensures sdus == ReceiveAll(records).1
  {
    var pending: Pending := map[];
    sdus := [];
    for i := 0 to |records|
      invariant (pending, sdus) == ReceiveAll(records[..i])
    {
      var record := records[i];
      ghost var before := pending;
      ghost var next := Receive(before, record);
      assert records[..i + 1][..i] == records[..i];
      assert ReceiveAll(records[..i + 1]) == (next.0, sdus + next.1);
      assert sdus + [] == sdus;
      if (record.packetType != ACL_TX && record.packetType != ACL_RX) || |record.data| < 4 {
        continue;
      }
      var word := Word(record.data, 0);
      var link := (record.packetType, Handle(word));
      var fragment := Clip(record.data, 4, Word(record.data, 2));
      var p: Partial;
      if Boundary(word) == 0 || Boundary(word) == 2 {
        if |fragment| < 4 {
          continue;
        }
        p := Partial(Word(fragment, 0), Word(fragment, 2), fragment[4..], [record.index], record.timestamp);
      } else if Boundary(word) == 1 && link in pending {
        p := pending[link];
        pending := pending - {link};
        p := p.(payload := p.payload + fragment, indices := p.indices + [record.index]);
      } else {
        continue;
      }
      assert Grown(before, record) == Some(p);
      if |p.payload| < p.expected {
        pending := pending[link := p];
        continue;
      }
      sdus := sdus + [Sdu(p.indices, p.started, link, p.cid, p.payload[..p.expected])];
    }
    assert records[..|records|] == records;
  }
}
