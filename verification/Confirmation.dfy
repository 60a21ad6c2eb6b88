/** A matched response means that the reduced state satisfies the command. */
module Confirmation {
  import opened Models
  import opened Frame
  import opened Protocol
  import opened ResponseMatcher
  import opened StateReducer

  /** One frame completes a fresh transaction. */
  predicate Completes(request: Request, frame: seq<byte>)
    requires |frame| == FRAME_LENGTH
  {
    Feed(START, request.response, frame).1 == Complete
  }

  /** Reduction of the completing frame, then the acknowledgement step. */
  function Confirmed(r: Reducer, profile: Profile, command: Command, frame: seq<byte>,
                     generation: int, matched: Option<string>): Reducer
    requires IsFrame(frame)
  {
    DecodedFramesAreDecoded(frame, profile);
    ApplyConfirmed(Reduce(r, profile.startup, Decode(frame, profile).value, generation, matched), command, generation)
  }

  /** Light frames are decoded by the two models that have a light. */
  predicate Readable(profile: Profile, command: Command) {
    (command.SetLightPower? || command.SetLightBrightness?) ==> profile.model == H7124 || profile.model == H7129
  }

  /** A command is answered by the first frame that completes it on its own: frames that
    * do not, however many, leave the matcher fresh. */
  lemma {:induction false} OtherFramesLeaveTheMatcherFresh(request: Request, stream: seq<seq<byte>>)
    requires Frames(stream) && request.response.kind == Fields
    requires forall i | 0 <= i < |stream| :: !Completes(request, stream[i])
    ensures FeedAll(START, request.response, stream) == START
  {
    if stream != [] {
      var n := |stream| - 1;
      OtherFramesLeaveTheMatcherFresh(request, stream[..n]);
      assert !Completes(request, stream[n]);
    }
  }

  // ---- what completes each command ----

  lemma FieldsComplete(request: Request, frame: seq<byte>)
    requires |frame| == FRAME_LENGTH && request.response.kind == Fields
    ensures Completes(request, frame) <==>
      || frame in request.response.exactAlternatives
      || (AnyPrefix(frame, request.response.allowedPrefixes) && FieldsMatch(frame, request.response.expectedFields))
  {
  }

  lemma OnePrefix(frame: seq<byte>, a: byte, b: byte)
    requires |frame| == FRAME_LENGTH
    ensures AnyPrefix(frame, [[a, b]]) <==> frame[0] == a && frame[1] == b
  {
    assert StartsWith(frame, [a, b]) <==> frame[0] == a && frame[1] == b by {
      assert frame[..2] == [frame[0], frame[1]];
    }
    assert AnyPrefix(frame, [[a, b]]) <==> StartsWith(frame, [[a, b]][0]);
  }

  lemma MorePrefixes(frame: seq<byte>, prefixes: seq<seq<byte>>, last: seq<byte>)
    ensures AnyPrefix(frame, prefixes + [last]) <==> AnyPrefix(frame, prefixes) || AnyPrefix(frame, [last])
  {
    var all := prefixes + [last];
    if i :| 0 <= i < |prefixes| && StartsWith(frame, prefixes[i]) {
      assert all[i] == prefixes[i];
    }
    if AnyPrefix(frame, [last]) {
      assert StartsWith(frame, [last][0]);
      assert all[|prefixes|] == last;
    }
    if i :| 0 <= i < |all| && StartsWith(frame, all[i]) {
      if i < |prefixes| {
        assert StartsWith(frame, prefixes[i]);
      } else {
        assert StartsWith(frame, [last][0]);
      }
    }
  }

  lemma ThreePrefixes(frame: seq<byte>, command: byte)
    requires |frame| == FRAME_LENGTH
    ensures AnyPrefix(frame, [[0xaa, command], [0x3a, command], [0xee, command]])
      <==> (frame[0] == 0xaa || frame[0] == 0x3a || frame[0] == 0xee) && frame[1] == command
  {
    OnePrefix(frame, 0xaa, command);
    OnePrefix(frame, 0x3a, command);
    OnePrefix(frame, 0xee, command);
    MorePrefixes(frame, [[0xaa, command]], [0x3a, command]);
    MorePrefixes(frame, [[0xaa, command]] + [[0x3a, command]], [0xee, command]);
    assert [[0xaa, command], [0x3a, command], [0xee, command]]
        == [[0xaa, command]] + [[0x3a, command]] + [[0xee, command]];
  }

  lemma TwoFields(frame: seq<byte>, fields: seq<(Offset, byte)>)
    requires |frame| == FRAME_LENGTH && |fields| == 2
    ensures FieldsMatch(frame, fields) <==> frame[fields[0].0] == fields[0].1 && frame[fields[1].0] == fields[1].1
  {
  }

  lemma OneField(frame: seq<byte>, fields: seq<(Offset, byte)>)
    requires |frame| == FRAME_LENGTH && |fields| == 1
    ensures FieldsMatch(frame, fields) <==> frame[fields[0].0] == fields[0].1
  {
  }

  // ---- fan mode ----

  lemma FanFieldsAreTheMode(profile: Profile, mode: FanMode, frame: seq<byte>)
    requires |frame| == FRAME_LENGTH && Encode(profile, SetFanMode(mode)).Ok?
    ensures FieldsMatch(frame, FanFields(mode, Encode(profile, SetFanMode(mode)).value))
      <==> DecodeFanMode(frame, profile) == Some(mode)
  {
    FanFrameBytes(profile, mode);
    var fields := FanFields(mode, Encode(profile, SetFanMode(mode)).value);
    if |fields| == 2 {
      TwoFields(frame, fields);
    } else {
      OneField(frame, fields);
    }
  }

  lemma FanRule(profile: Profile, mode: FanMode)
    requires Encode(profile, SetFanMode(mode)).Ok?
    ensures var q := CommandRequest(profile, SetFanMode(mode)); var f := Encode(profile, SetFanMode(mode)).value;
      && q.Ok? && |f| == FRAME_LENGTH && q.value.frame == f
      && q.value.response.kind == Fields
      && q.value.response.exactAlternatives == [f]
      && q.value.response.expectedFields == FanFields(mode, f)
      && q.value.response.allowedPrefixes ==
         if profile.startup == Direct then [[0xee, 0x05]] + [[0xaa, 0x05]] else [[0xee, 0x05]]
  {
    EncodedFramesAreFrames(profile, SetFanMode(mode));
  }

  /** The frames that report a fan mode: ee 05, and aa 05 when the startup mode is
    * reported directly. */
  predicate FanReport(profile: Profile, frame: seq<byte>)
    requires |frame| == FRAME_LENGTH
  {
    frame[1] == 5 && (frame[0] == 0xee || (frame[0] == 0xaa && profile.startup == Direct))
  }

  lemma FanPrefixes(profile: Profile, frame: seq<byte>)
    requires |frame| == FRAME_LENGTH
    ensures AnyPrefix(frame, if profile.startup == Direct then [[0xee, 0x05]] + [[0xaa, 0x05]] else [[0xee, 0x05]])
      <==> FanReport(profile, frame)
  {
    OnePrefix(frame, 0xee, 0x05);
    OnePrefix(frame, 0xaa, 0x05);
    MorePrefixes(frame, [[0xee, 0x05]], [0xaa, 0x05]);
  }

  /** SetFanMode completes on exactly two kinds of frame: the echo of its own frame, and
    * a fan report that decodes to the requested mode. */
  lemma FanCompletion(profile: Profile, mode: FanMode, frame: seq<byte>)
    requires |frame| == FRAME_LENGTH && CommandRequest(profile, SetFanMode(mode)).Ok?
    ensures var q := CommandRequest(profile, SetFanMode(mode)).value;
      Completes(q, frame) <==>
        frame == q.frame || (FanReport(profile, frame) && DecodeFanMode(frame, profile) == Some(mode))
  {
    assert Encode(profile, SetFanMode(mode)).Ok?;
    FanRule(profile, mode);
    var q := CommandRequest(profile, SetFanMode(mode)).value;
    FieldsComplete(q, frame);
    FanFieldsAreTheMode(profile, mode, frame);
    FanPrefixes(profile, frame);
  }

  /** A fan report is decoded as one, whatever the model. */
  lemma FanReportsDecode(profile: Profile, frame: seq<byte>)
    requires |frame| == FRAME_LENGTH && FanReport(profile, frame)
    ensures DecodeFrame(frame, profile) == FanEvent(frame, profile)
  {
  }

  /** A fan report completes SetFanMode(m) exactly when reducing it alone leaves fan mode
    * m; the command's own echo says nothing about the fan and changes no state. */
  lemma FanReportsConfirmThemselves(profile: Profile, mode: FanMode, r: Reducer, frame: seq<byte>,
                                    generation: int, matched: Option<string>)
    requires |frame| == FRAME_LENGTH && CommandRequest(profile, SetFanMode(mode)).Ok?
    requires Decoded(DecodeFrame(frame, profile))
    ensures var q := CommandRequest(profile, SetFanMode(mode)).value;
      var after := Reduce(r, profile.startup, DecodeFrame(frame, profile), generation, matched);
      && (FanReport(profile, frame) ==> (Completes(q, frame) <==> Satisfied(after.state, SetFanMode(mode))))
      && (frame == q.frame ==> !FanReport(profile, frame) && after == r)
  {
    FanCompletion(profile, mode, frame);
    FanFrameBytes(profile, mode);
    FanRule(profile, mode);
    if FanReport(profile, frame) {
      FanReportsDecode(profile, frame);
    }
    if frame == CommandRequest(profile, SetFanMode(mode)).value.frame {
      EchoesDecodeAsEchoes(profile, frame);
    }
  }

  lemma EchoesDecodeAsEchoes(profile: Profile, frame: seq<byte>)
    requires |frame| == FRAME_LENGTH && (frame[0] == 0x33 || frame[0] == 0x3a) && frame[1] == 5
    ensures DecodeFrame(frame, profile) == Echo
  {
  }

  // ---- the other commands ----

  lemma PowerCompletion(profile: Profile, on: bool, frame: seq<byte>)
    requires |frame| == FRAME_LENGTH
    ensures var q := CommandRequest(profile, SetPower(on));
      q.Ok? && (Completes(q.value, frame) <==> frame[0] == 0xaa && frame[1] == 0x01 && frame[2] == BoolByte(on))
  {
    EncodedFramesAreFrames(profile, SetPower(on));
    var q := CommandRequest(profile, SetPower(on)).value;
    FieldsComplete(q, frame);
    OnePrefix(frame, 0xaa, 0x01);
    OneField(frame, q.response.expectedFields);
  }

  predicate LightReport(frame: seq<byte>)
    requires |frame| == FRAME_LENGTH
  {
    (frame[0] == 0xaa || frame[0] == 0x3a || frame[0] == 0xee) && frame[1] == 0x1b && frame[2] == 1
  }

  lemma LightPowerCompletion(profile: Profile, lit: bool, frame: seq<byte>)
    requires |frame| == FRAME_LENGTH
    ensures var q := CommandRequest(profile, SetLightPower(lit));
      q.Ok? && (Completes(q.value, frame) <==> LightReport(frame) && frame[3] == BoolByte(lit))
  {
    EncodedFramesAreFrames(profile, SetLightPower(lit));
    var q := CommandRequest(profile, SetLightPower(lit)).value;
    FieldsComplete(q, frame);
    ThreePrefixes(frame, 0x1b);
    TwoFields(frame, q.response.expectedFields);
  }

  lemma LightBrightnessCompletion(profile: Profile, percent: int, frame: seq<byte>)
    requires |frame| == FRAME_LENGTH && 1 <= percent <= 100
    ensures var q := CommandRequest(profile, SetLightBrightness(percent));
      q.Ok? && (Completes(q.value, frame) <==> LightReport(frame) && frame[4] == percent as byte)
  {
    EncodedFramesAreFrames(profile, SetLightBrightness(percent));
    var q := CommandRequest(profile, SetLightBrightness(percent)).value;
    FieldsComplete(q, frame);
    ThreePrefixes(frame, 0x1b);
    TwoFields(frame, q.response.expectedFields);
  }

  lemma LightReportsDecode(profile: Profile, frame: seq<byte>)
    requires |frame| == FRAME_LENGTH && LightReport(frame) && (profile.model == H7124 || profile.model == H7129)
    ensures DecodeFrame(frame, profile) == LightState(DecodeBool(frame[3]), frame[4], frame[0])
  {
  }

  lemma NumberRoundTrip(b: byte)
    ensures (b as int) as byte == b
  {
  }

  lemma NextNumber(b: byte)
    requires b != 255
    ensures (b + 1) as int == b as int + 1
  {
  }

  lemma {:induction false} ByteFor(n: int) returns (b: byte)
    requires 0 <= n <= 255
    ensures b as int == n
  {
    if n == 0 {
      b := 0;
    } else {
      var before := ByteFor(n - 1);
      NextNumber(before);
      b := before + 1;
    }
  }

  lemma ByteRoundTrip(percent: int)
    requires 0 <= percent <= 255
    ensures (percent as byte) as int == percent
  {
    var b := ByteFor(percent);
    NumberRoundTrip(b);
  }

  /** Confirmation soundness: if a frame completes the transaction of a command, then
    * reducing it and applying the acknowledgement leaves a state that satisfies the
    * command, from any earlier state and whatever request the frame is matched to. */
  lemma CompletionSatisfiesCommand(profile: Profile, command: Command, r: Reducer, frame: seq<byte>,
                                   generation: int, matched: Option<string>)
    requires IsFrame(frame) && |frame| == FRAME_LENGTH
    requires CommandRequest(profile, command).Ok? && Completes(CommandRequest(profile, command).value, frame)
    requires Readable(profile, command) && !command.SetLightColor?
    ensures Satisfied(Confirmed(r, profile, command, frame, generation, matched).state, command)
  {
    match command
    case SetPower(on) => PowerCompletion(profile, on, frame);
    case SetFanMode(_) =>
    case SetLightPower(lit) =>
      LightPowerCompletion(profile, lit, frame);
      LightReportsDecode(profile, frame);
    case SetLightBrightness(percent) =>
      assert 1 <= percent <= 100;
      LightBrightnessCompletion(profile, percent, frame);
      LightReportsDecode(profile, frame);
      ByteRoundTrip(percent);
  }

  /** Off the two models with a light the decoder reads no light frame: a frame that
    * completes a light command leaves the state as it was, confirmed or not. */
  lemma UnreadableCommandsChangeNothing(profile: Profile, command: Command, r: Reducer, frame: seq<byte>,
                                        generation: int, matched: Option<string>)
    requires IsFrame(frame) && |frame| == FRAME_LENGTH
    requires CommandRequest(profile, command).Ok? && Completes(CommandRequest(profile, command).value, frame)
    requires !Readable(profile, command)
    ensures Confirmed(r, profile, command, frame, generation, matched) == r
  {
    match command
    case SetLightPower(lit) => LightPowerCompletion(profile, lit, frame);
    case SetLightBrightness(percent) => LightBrightnessCompletion(profile, percent, frame);
  }
}
