/** Which frames the single-frame response rules accept. */
module ResponseRules {
  import opened Models
  import opened Frame
  import opened Protocol
  import opened ResponseMatcher

  /** The frame is one of the rule's listed alternatives. */
  predicate Listed(spec: ResponseSpec, frame: seq<byte>) {
    frame in spec.exactAlternatives
  }

  lemma OnlyZerosFollow(frame: seq<byte>, content: seq<byte>)
    requires IsFrame(frame) && |content| <= CONTENT_LENGTH
    ensures BuildFrame(content) == Ok(frame) <==> frame[..|content|] == content && AllZero(frame[|content|..CONTENT_LENGTH])
  {
    BuiltFramesValidate(content);
    ValidFramesAreBuilt(frame);
    if frame[..|content|] == content && AllZero(frame[|content|..CONTENT_LENGTH]) {
      forall i | 0 <= i < CONTENT_LENGTH
        ensures frame[i] == Padded(content)[i]
      {
        if i < |content| {
          assert frame[..|content|][i] == content[i];
        } else {
          assert frame[|content|..CONTENT_LENGTH][i - |content|] == 0;
        }
      }
      assert frame[..CONTENT_LENGTH] == Padded(content);
      assert Padded(frame[..CONTENT_LENGTH]) == frame[..CONTENT_LENGTH];
    }
  }

  /** A zero-payload rule accepts exactly the frame that carries its prefix alone. */
  lemma ZeroPayloadRule(spec: ResponseSpec, frame: seq<byte>)
    requires IsFrame(frame) && spec.kind == ZeroPayload && |spec.prefix| == 2
    ensures MatchesAtOnce(frame, spec) <==> Listed(spec, frame) || BuildFrame(spec.prefix) == Ok(frame)
  {
    OnlyZerosFollow(frame, spec.prefix);
  }

  /** A value-byte rule accepts exactly the frames that carry its prefix and one allowed value. */
  lemma ValueByteRule(spec: ResponseSpec, frame: seq<byte>)
    requires IsFrame(frame) && spec.kind == ValueByte && |spec.prefix| == 2
    ensures MatchesAtOnce(frame, spec) <==>
      Listed(spec, frame) || (frame[2] in spec.allowedValues && BuildFrame(spec.prefix + [frame[2]]) == Ok(frame))
  {
    OnlyZerosFollow(frame, spec.prefix + [frame[2]]);
    assert frame[..3] == frame[..2] + [frame[2]];
  }

  /** The frame carries these octets from place i on. */
  predicate Carries(frame: seq<byte>, part: seq<byte>, i: nat) {
    i + |part| <= |frame| && forall k | 0 <= k < |part| :: frame[i + k] == part[k]
  }

  /** A prefix rule, with or without a selector, looks at the first octets only. */
  lemma PrefixRules(spec: ResponseSpec, frame: seq<byte>)
    requires |frame| == FRAME_LENGTH && |spec.prefix| + |spec.selector| <= FRAME_LENGTH
    ensures spec.kind == Prefix ==>
      (MatchesAtOnce(frame, spec) <==> Listed(spec, frame) || Carries(frame, spec.prefix, 0))
    ensures spec.kind == PrefixSelector ==>
      (MatchesAtOnce(frame, spec) <==> Listed(spec, frame) || Carries(frame, spec.prefix + spec.selector, 0))
  {
    var p, all := |spec.prefix|, spec.prefix + spec.selector;
    assert StartsWith(frame, spec.prefix) <==> Carries(frame, spec.prefix, 0);
    if Carries(frame, all, 0) {
      assert forall k | 0 <= k < p :: all[k] == spec.prefix[k];
      assert forall k | 0 <= k < |spec.selector| :: all[p + k] == spec.selector[k];
      assert frame[p..p + |spec.selector|] == spec.selector;
    }
    if StartsWith(frame, spec.prefix) && frame[p..p + |spec.selector|] == spec.selector {
      forall k | 0 <= k < |all|
        ensures frame[k] == all[k]
      {
        assert k >= p ==> frame[p..p + |spec.selector|][k - p] == spec.selector[k - p];
        assert k < p ==> frame[..p][k] == spec.prefix[k];
      }
    }
  }

  /** The metadata rule looks for its marker anywhere between the prefix and the checksum. */
  lemma MetadataRule(spec: ResponseSpec, frame: seq<byte>)
    requires |frame| == FRAME_LENGTH && spec.kind == Metadata
    ensures MatchesAtOnce(frame, spec) <==>
      Listed(spec, frame)
      || (frame[0] == 0xab && frame[1] == 0
          && exists i :: 2 <= i <= CONTENT_LENGTH - 4 && Carries(frame, [2, 2, 0, 1], i))
  {
    var body, part: seq<byte> := frame[2..19], [2, 2, 0, 1];
    forall i | 0 <= i <= 13
      ensures OccursAt(body, part, i) <==> Carries(frame, part, i + 2)
    {
      assert body[i] == frame[i + 2] && body[i + 1] == frame[i + 3] && body[i + 2] == frame[i + 4] && body[i + 3] == frame[i + 5];
      if OccursAt(body, part, i) {
        var w := body[i..i + |part|];
        assert w[0] == body[i] && w[1] == body[i + 1] && w[2] == body[i + 2] && w[3] == body[i + 3];
      }
      if Carries(frame, part, i + 2) {
        assert body[i..i + |part|] == part;
      }
    }
    if i :| 0 <= i <= |body| - |part| && OccursAt(body, part, i) {
      assert Carries(frame, part, i + 2);
    }
    if i :| 2 <= i <= 15 && Carries(frame, part, i) {
      assert OccursAt(body, part, i - 2);
    }
  }
}
