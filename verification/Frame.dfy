/** Twenty-byte application frames closed by the XOR of their first nineteen bytes. */
module Frame {
  import opened Models

  type byte = bv8

  const FRAME_LENGTH := 20
  const CONTENT_LENGTH := 19

  datatype FrameError = WrongLength | BadChecksum

  function XorChecksum(content: seq<byte>): byte {
    if content == [] then 0 else XorChecksum(content[..|content| - 1]) ^ content[|content| - 1]
  }

  function Padded(content: seq<byte>): (r: seq<byte>)
    requires |content| <= CONTENT_LENGTH
  {
    content + seq(CONTENT_LENGTH - |content|, _ => 0)
  }

  function BuildFrame(content: seq<byte>): Result<seq<byte>, FrameError> {
    if |content| > CONTENT_LENGTH then Err(WrongLength)
    else Ok(Padded(content) + [XorChecksum(Padded(content))])
  }

  function ValidateFrame(frame: seq<byte>): Result<seq<byte>, FrameError> {
    if |frame| != FRAME_LENGTH then Err(WrongLength)
    else if frame[CONTENT_LENGTH] != XorChecksum(frame[..CONTENT_LENGTH]) then Err(BadChecksum)
    else Ok(frame)
  }

  predicate IsFrame(frame: seq<byte>) {
    ValidateFrame(frame).Ok?
  }

  /** A built frame validates and carries its content, padded with zeros. */
  lemma BuiltFramesValidate(content: seq<byte>)
    requires |content| <= CONTENT_LENGTH
    ensures var f := BuildFrame(content).value;
      && ValidateFrame(f) == Ok(f)
      && f[..|content|] == content
      && forall i | |content| <= i < CONTENT_LENGTH :: f[i] == 0
  {
    var f := BuildFrame(content).value;
    assert f[..CONTENT_LENGTH] == Padded(content);
  }

  /** Valid frames are exactly the frames built from nineteen bytes of content. */
  lemma ValidFramesAreBuilt(frame: seq<byte>)
    ensures IsFrame(frame) <==> |frame| == FRAME_LENGTH && BuildFrame(frame[..CONTENT_LENGTH]) == Ok(frame)
  {
    if |frame| == FRAME_LENGTH {
      assert Padded(frame[..CONTENT_LENGTH]) == frame[..CONTENT_LENGTH];
      assert frame == frame[..CONTENT_LENGTH] + [frame[CONTENT_LENGTH]];
    }
  }

  lemma XorDiffers(x: byte, a: byte, b: byte)
    requires a != b
    ensures x ^ a ^ b != x
  {
  }

  lemma {:induction false} ChecksumAfterChange(content: seq<byte>, i: nat, v: byte)
    requires i < |content|
    ensures XorChecksum(content[i := v]) == XorChecksum(content) ^ content[i] ^ v
  {
    var n := |content| - 1;
    var head, last := content[..n], content[n];
    if i == n {
      assert content[i := v][..n] == head;
      var x := XorChecksum(head);
      assert x ^ v == (x ^ last) ^ last ^ v by { XorCancels(x, last); }
    } else {
      ChecksumAfterChange(head, i, v);
      assert content[i := v][..n] == head[i := v];
      var x := XorChecksum(head);
      XorMoves(x, content[i], v, last);
    }
  }

  lemma XorCancels(x: byte, a: byte)
    ensures x ^ a ^ a == x
  {
  }

  lemma XorMoves(x: byte, a: byte, v: byte, last: byte)
    ensures (x ^ a ^ v) ^ last == (x ^ last) ^ a ^ v
  {
  }

  /** Changing any single byte of a valid frame makes its checksum fail. */
  lemma SingleByteChangesAreDetected(frame: seq<byte>, i: nat, v: byte)
    requires IsFrame(frame) && i < FRAME_LENGTH && frame[i] != v
    ensures ValidateFrame(frame[i := v]) == Err(BadChecksum)
  {
    if i < CONTENT_LENGTH {
      var content := frame[..CONTENT_LENGTH];
      assert frame[i := v][..CONTENT_LENGTH] == content[i := v];
      ChecksumAfterChange(content, i, v);
      XorDiffers(XorChecksum(content), content[i], v);
    } else {
      assert frame[i := v][..CONTENT_LENGTH] == frame[..CONTENT_LENGTH];
    }
  }

  /** All octets folded from the front. */
  function XorAll(s: seq<byte>): byte {
    if s == [] then 0 else s[0] ^ XorAll(s[1..])
  }

  lemma {:induction false} XorAllSnoc(s: seq<byte>, x: byte)
    ensures XorAll(s + [x]) == XorAll(s) ^ x
  {
    if s == [] {
      assert [x][1..] == [];
    } else {
      assert (s + [x])[1..] == s[1..] + [x];
      XorAllSnoc(s[1..], x);
    }
  }

  lemma {:induction false} ChecksumIsTheFold(s: seq<byte>)
    ensures XorChecksum(s) == XorAll(s)
  {
    if s != [] {
      var n := |s| - 1;
      ChecksumIsTheFold(s[..n]);
      XorAllSnoc(s[..n], s[n]);
      assert s == s[..n] + [s[n]];
    }
  }

  lemma XorsToZero(a: byte, b: byte)
    ensures a ^ b == 0 <==> a == b
  {
  }

  /** A frame is valid exactly if it has twenty octets and they cancel out. */
  lemma FramesCancelOut(frame: seq<byte>)
    ensures IsFrame(frame) <==> |frame| == FRAME_LENGTH && XorAll(frame) == 0
  {
    if |frame| == FRAME_LENGTH {
      ChecksumIsTheFold(frame[..CONTENT_LENGTH]);
      XorAllSnoc(frame[..CONTENT_LENGTH], frame[CONTENT_LENGTH]);
      XorsToZero(XorAll(frame[..CONTENT_LENGTH]), frame[CONTENT_LENGTH]);
      assert frame == frame[..CONTENT_LENGTH] + [frame[CONTENT_LENGTH]];
    }
  }
}
