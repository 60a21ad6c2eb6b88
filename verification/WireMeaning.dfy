/** What the bytes on the wire mean: where a command carries its value, how the device's
  * reports are read, and that the startup answers restore the mode they encode. */
module WireMeaning {
  import opened Models
  import opened Frame
  import opened Protocol
  import opened StateReducer
  import opened StartupMode

  // ---- commands ----

  lemma EncodedContent(profile: Profile, command: Command, i: nat)
    requires Encode(profile, command).Ok? && i < |Content(profile, command).value|
    ensures |Encode(profile, command).value| == FRAME_LENGTH
    ensures Encode(profile, command).value[i] == Content(profile, command).value[i]
  {
    EncodedFramesAreFrames(profile, command);
    var f, c := Encode(profile, command).value, Content(profile, command).value;
    assert f[i] == f[..|c|][i];
  }

  /** A frame starts with these bytes. */
  predicate Starts(f: seq<byte>, bytes: seq<byte>) {
    |bytes| <= |f| && forall i | 0 <= i < |bytes| :: f[i] == bytes[i]
  }

  lemma ContentStarts(profile: Profile, command: Command)
    requires Encode(profile, command).Ok?
    ensures Starts(Encode(profile, command).value, Content(profile, command).value)
  {
    EncodedFramesAreFrames(profile, command);
    forall i: nat | i < |Content(profile, command).value|
      ensures Encode(profile, command).value[i] == Content(profile, command).value[i]
    {
      EncodedContent(profile, command, i);
    }
  }

  /** The power command carries its value in octet 2, where a report of the power has it and
    * where the response rule looks for it. */
  lemma PowerCommands(profile: Profile, on: bool, report: seq<byte>)
    requires |report| == FRAME_LENGTH && report[0] == 0xaa && report[1] == 0x01
    ensures var r := CommandRequest(profile, SetPower(on));
      && r.Ok? && Starts(r.value.frame, [0x33, 0x01, if on then 1 else 0])
      && r.value.response.expectedFields == [(2, r.value.frame[2])]
      && (DecodeFrame(report, profile).power == Some(on) <==> report[2] == r.value.frame[2])
  {
    BuiltFramesValidate(Content(profile, SetPower(on)).value);
    ContentStarts(profile, SetPower(on));
  }

  /** A light command carries its value in octet 4; a report has the power in octet 3 and the
    * brightness in octet 4, where the response rules look for them. */
  lemma LightPowerCommands(profile: Profile, lit: bool, report: seq<byte>)
    requires profile.model == H7124 || profile.model == H7129
    requires |report| == FRAME_LENGTH && report[0] == 0xaa && report[1] == 0x1b && report[2] == 0x01
    ensures var r := CommandRequest(profile, SetLightPower(lit));
      && r.Ok? && Starts(r.value.frame, [0x3a, 0x1b, 0x01, 0x01, if lit then 1 else 0])
      && r.value.response.expectedFields == [(2, 1), (3, r.value.frame[4])]
      && DecodeFrame(report, profile).LightState?
      && (DecodeFrame(report, profile).light == Some(lit) <==> report[3] == r.value.frame[4])
  {
    BuiltFramesValidate(Content(profile, SetLightPower(lit)).value);
    ContentStarts(profile, SetLightPower(lit));
  }

  lemma BrightnessFrame(profile: Profile, percent: int)
    ensures var r := CommandRequest(profile, SetLightBrightness(percent));
      && (r.Ok? <==> 1 <= percent <= 100)
      && (r.Ok? ==>
            && Starts(r.value.frame, [0x3a, 0x1b, 0x01, 0x02, percent as byte])
            && r.value.response.expectedFields == [(2, 1), (4, r.value.frame[4])])
  {
    if 1 <= percent <= 100 {
      BuiltFramesValidate(Content(profile, SetLightBrightness(percent)).value);
      ContentStarts(profile, SetLightBrightness(percent));
    }
  }

  lemma LightReport(profile: Profile, report: seq<byte>)
    requires profile.model == H7124 || profile.model == H7129
    requires |report| == FRAME_LENGTH && report[0] == 0xaa && report[1] == 0x1b && report[2] == 0x01
    ensures DecodeFrame(report, profile).LightState? && DecodeFrame(report, profile).brightness == report[4]
  {
  }

  lemma BrightnessCommands(profile: Profile, percent: int, report: seq<byte>)
    requires profile.model == H7124 || profile.model == H7129
    requires |report| == FRAME_LENGTH && report[0] == 0xaa && report[1] == 0x1b && report[2] == 0x01
    ensures var r := CommandRequest(profile, SetLightBrightness(percent));
      && (r.Ok? <==> 1 <= percent <= 100)
      && (r.Ok? ==>
            && Starts(r.value.frame, [0x3a, 0x1b, 0x01, 0x02, percent as byte])
            && r.value.response.expectedFields == [(2, 1), (4, r.value.frame[4])]
            && DecodeFrame(report, profile).LightState?
            && (DecodeFrame(report, profile).brightness as int == percent <==> report[4] == r.value.frame[4]))
  {
    BrightnessFrame(profile, percent);
    LightReport(profile, report);
    if 1 <= percent <= 100 {
      SentByte(CommandRequest(profile, SetLightBrightness(percent)).value.frame, percent);
    }
  }

  lemma SentByte(frame: seq<byte>, percent: int)
    requires 1 <= percent <= 100 && Starts(frame, [0x3a, 0x1b, 0x01, 0x02, percent as byte])
    ensures |frame| > 4 && frame[4] as int == percent
  {
    assert [0x3a, 0x1b, 0x01, 0x02, percent as byte][4] == percent as byte;
  }

  lemma ColorFrame(profile: Profile, red: byte, green: byte, blue: byte)
    ensures var r := CommandRequest(profile, SetLightColor(red as int, green as int, blue as int));
      r.Ok? && Starts(r.value.frame, [0x3a, 0x1b, 0x05, 0x0d, red, green, blue])
  {
    BuiltFramesValidate(Content(profile, SetLightColor(red as int, green as int, blue as int)).value);
    ContentStarts(profile, SetLightColor(red as int, green as int, blue as int));
  }

  lemma ColorReport(profile: Profile, report: seq<byte>)
    requires profile.model == H7124 || profile.model == H7129
    requires |report| == FRAME_LENGTH && Starts(report, [0xaa, 0x1b, 0x05, 0x0d])
    ensures DecodeFrame(report, profile) == LightColor(Some((report[4], report[5], report[6])), false)
  {
    assert report[0] == 0xaa && report[1] == 0x1b && report[2] == 0x05 && report[3] == 0x0d;
  }

  /** A colour command carries red, green and blue in octets 4 to 6, as a report does. */
  lemma ColorCommands(profile: Profile, red: byte, green: byte, blue: byte, report: seq<byte>)
    requires profile.model == H7124 || profile.model == H7129
    requires |report| == FRAME_LENGTH && Starts(report, [0xaa, 0x1b, 0x05, 0x0d])
    ensures var r := CommandRequest(profile, SetLightColor(red as int, green as int, blue as int));
      && r.Ok? && Starts(r.value.frame, [0x3a, 0x1b, 0x05, 0x0d, red, green, blue])
      && (DecodeFrame(report, profile) == LightColor(Some((red, green, blue)), false) <==>
            Starts(report, [0xaa, 0x1b, 0x05, 0x0d, red, green, blue]))
  {
    ColorFrame(profile, red, green, blue);
    ColorReport(profile, report);
    var bytes := [0xaa, 0x1b, 0x05, 0x0d, red, green, blue];
    assert bytes[4] == red && bytes[5] == green && bytes[6] == blue;
  }

  // ---- reports ----

  /** The two octets of a PM2.5 value up to 999, the more significant first, are read back as
    * that value; a value above is unknown. Filter life is octet 7. */
  lemma AirQualityReports(profile: Profile, report: seq<byte>, value: int)
    requires profile.model == H7124 || profile.model == H7129
    requires |report| == FRAME_LENGTH && (report[0] == 0xaa || report[0] == 0xee) && report[1] == 0x19
    requires 0 <= value < 0x10000 && report[3] as int == value / 256 && report[4] as int == value % 256
    ensures DecodeFrame(report, profile)
         == AirQuality(if value <= 999 then Some(value) else None, report[7], report[0] == 0xee)
  {
  }

  // ---- the startup answers ----

  /** The answer to the first startup query for a mode: its code and manual level. */
  predicate AnswersZero(report: seq<byte>, profile: Profile, mode: FanMode) {
    |report| == FRAME_LENGTH && Starts(report, [0xaa, 0x05, 0x00, FanPayload(profile, mode)[0], FanPayload(profile, mode)[1]])
  }

  /** The answer to the second: the manual level of a manual mode. */
  predicate AnswersOne(report: seq<byte>, profile: Profile, mode: FanMode) {
    |report| == FRAME_LENGTH && Starts(report, [0xaa, 0x05, 0x01, FanPayload(profile, mode)[1]])
  }

  function Heard(report: seq<byte>, profile: Profile, generation: int, query: string): Input
    requires |report| == FRAME_LENGTH
  {
    Received(DecodeFrame(report, profile), generation, Some(query))
  }

  /** The octets of the startup answers. */
  lemma StartupAnswers(profile: Profile, report: seq<byte>)
    requires |report| == FRAME_LENGTH && report[0] == 0xaa && report[1] == 0x05 && profile.startup != Direct
    ensures report[2] == 0 ==> DecodeFrame(report, profile) == StartupFan(0, Some(report[3]), Some(report[4]), None, None)
    ensures report[2] == 1 ==> DecodeFrame(report, profile) == StartupFan(1, None, None, Some(report[3]), None)
    ensures report[2] == 3 ==> DecodeFrame(report, profile) == StartupFan(3, None, None, None, Some(report[5]))
  {
  }

  /** A model that reports its mode in one answer: the answer that encodes a mode sets it. */
  lemma OneAnswerRestoresTheMode(profile: Profile, r: Reducer, report: seq<byte>, mode: FanMode, generation: int)
    requires profile.startup == SelectorZero && AnswersZero(report, profile, mode)
    ensures var x := Heard(report, profile, generation, "mode_data_00");
      Decoded(x.event) && Apply(r, SelectorZero, x).state.fanMode == Some(mode)
  {
    assert report[0] == 0xaa && report[1] == 0x05 && report[2] == 0;
    StartupAnswers(profile, report);
    DecodedFramesAreDecoded(report, profile);
    assert report[3] == FanPayload(profile, mode)[0] && report[4] == FanPayload(profile, mode)[1];
  }

  predicate Manual(mode: FanMode) {
    mode == Low || mode == Medium || mode == High
  }

  /** A model that reports it in a pair: the first answer sets any other mode and leaves a
    * manual one unknown, which the second answer then sets. */
  lemma TwoAnswersRestoreTheMode(profile: Profile, r: Reducer, first: seq<byte>, second: seq<byte>, mode: FanMode,
                                 generation: int)
    requires profile.startup == SelectorPair && AnswersZero(first, profile, mode) && AnswersOne(second, profile, mode)
    ensures var x, y := Heard(first, profile, generation, "mode_data_00"), Heard(second, profile, generation, "mode_data_01");
      && Decoded(x.event) && Decoded(y.event)
      && Apply(r, SelectorPair, x).state.fanMode == (if Manual(mode) then None else Some(mode))
      && Apply(Apply(r, SelectorPair, x), SelectorPair, y).state.fanMode == Some(mode)
  {
    assert first[0] == 0xaa && first[1] == 0x05 && first[2] == 0 && second[0] == 0xaa && second[1] == 0x05 && second[2] == 1;
    assert first[3] == FanPayload(profile, mode)[0] && second[3] == FanPayload(profile, mode)[1];
    StartupAnswers(profile, first);
    StartupAnswers(profile, second);
    DecodedFramesAreDecoded(first, profile);
    DecodedFramesAreDecoded(second, profile);
  }

  /** A fan command and the report of its mode carry the same code, level and parameter, and
    * these are the codes of the wire. */
  lemma FanCommands(profile: Profile, mode: FanMode, report: seq<byte>)
    requires Encode(profile, SetFanMode(mode)).Ok? && |report| == FRAME_LENGTH && report[0] == 0xee && report[1] == 0x05
    requires var f := Encode(profile, SetFanMode(mode)).value;
      |f| == FRAME_LENGTH ==> report[2] == f[2] && report[3] == f[3] && report[5] == f[5]
    ensures var f := Encode(profile, SetFanMode(mode)).value;
      && |f| == FRAME_LENGTH && DecodeFrame(report, profile).FanUpdate? && DecodeFrame(report, profile).reported == Some(mode)
      && f[0] == (if profile.model == H712C then 0x33 else 0x3a) && f[1] == 0x05
      && match mode
         case Low => f[2] == 1 && f[3] == 1
         case Medium => f[2] == 1 && f[3] == 2
         case High => f[2] == 1 && f[3] == 3
         case Auto => f[2] == 3 && f[5] == profile.autoParameter
         case Sleep => f[2] == 5
         case Turbo => f[2] == 7
  {
    FanFrameBytes(profile, mode);
  }

  // ---- the other attributes ----

  /** The events of the frames a history has received. */
  function Reports(inputs: seq<Input>): seq<Event> {
    if inputs == [] then []
    else
      var before, last := inputs[..|inputs| - 1], inputs[|inputs| - 1];
      if last.Received? then Reports(before) + [last.event] else Reports(before)
  }

  /** The power in the latest device report that tells it. */
  function LatestPower(events: seq<Event>): Option<bool> {
    if events == [] then None
    else
      var e := events[|events| - 1];
      if e.DeviceState? && e.power.Some? then e.power else LatestPower(events[..|events| - 1])
  }

  function LatestLight(events: seq<Event>): Option<bool> {
    if events == [] then None
    else
      var e := events[|events| - 1];
      if e.LightState? && e.light.Some? then e.light else LatestLight(events[..|events| - 1])
  }

  function LatestBrightness(events: seq<Event>): Option<int> {
    if events == [] then None
    else
      var e := events[|events| - 1];
      if e.LightState? && 1 <= e.brightness as int <= 100 then Some(e.brightness as int)
      else LatestBrightness(events[..|events| - 1])
  }

  /** An acknowledgement of a colour command does not report the colour. */
  function LatestColor(events: seq<Event>): Option<(byte, byte, byte)> {
    if events == [] then None
    else
      var e := events[|events| - 1];
      if e.LightColor? && !e.acknowledgementOnly && e.rgb.Some? then e.rgb else LatestColor(events[..|events| - 1])
  }

  /** The latest air-quality report, whether or not its PM2.5 value could be read. */
  function LatestAir(events: seq<Event>): (Option<int>, Option<byte>) {
    if events == [] then (None, None)
    else
      var e := events[|events| - 1];
      if e.AirQuality? then (e.pm25, Some(e.filterLife)) else LatestAir(events[..|events| - 1])
  }

  /** The attributes other than the fan mode are the latest reported. */
  predicate Shows(s: PurifierState, events: seq<Event>) {
    && s.power == LatestPower(events) && s.lightPower == LatestLight(events) && s.lightBrightness == LatestBrightness(events)
    && s.lightRgb == LatestColor(events) && (s.pm25, s.filterLife) == LatestAir(events)
  }

  lemma LatestNext(events: seq<Event>, e: Event)
    ensures (events + [e])[..|events|] == events
    ensures LatestPower(events + [e]) == if e.DeviceState? && e.power.Some? then e.power else LatestPower(events)
    ensures LatestLight(events + [e]) == if e.LightState? && e.light.Some? then e.light else LatestLight(events)
    ensures LatestBrightness(events + [e]) ==
      if e.LightState? && 1 <= e.brightness as int <= 100 then Some(e.brightness as int) else LatestBrightness(events)
    ensures LatestColor(events + [e]) ==
      if e.LightColor? && !e.acknowledgementOnly && e.rgb.Some? then e.rgb else LatestColor(events)
    ensures LatestAir(events + [e]) == if e.AirQuality? then (e.pm25, Some(e.filterLife)) else LatestAir(events)
  {
    assert (events + [e])[..|events|] == events;
  }

  lemma StartupLeavesAttributes(r: Reducer, strategy: Startup, e: Event, generation: int, matched: Option<string>)
    requires e.StartupFan? && Decoded(e)
    ensures Reduce(r, strategy, e, generation, matched).state.(fanMode := r.state.fanMode) == r.state
  {
  }

  lemma LightShows(s: PurifierState, e: Event, events: seq<Event>)
    requires Shows(s, events) && e.LightState?
    ensures Shows(LightChange(s, e.light, e.brightness), events + [e])
  {
    LatestNext(events, e);
  }

  lemma ReductionShows(r: Reducer, strategy: Startup, e: Event, generation: int, matched: Option<string>, events: seq<Event>)
    requires Shows(r.state, events) && Decoded(e)
    ensures Shows(Reduce(r, strategy, e, generation, matched).state, events + [e])
  {
    if e.StartupFan? {
      StartupLeavesAttributes(r, strategy, e, generation, matched);
    } else if e.LightState? {
      LightShows(r.state, e, events);
    }
    LatestNext(events, e);
  }

  /** After any history, acknowledgements and lost connections included, every attribute other
    * than the fan mode is the one the device last reported. */
  lemma {:induction false} StateIsTheLatestReport(strategy: Startup, inputs: seq<Input>)
    requires Readable(inputs)
    ensures Shows(Replay(strategy, inputs).state, Reports(inputs))
  {
    if inputs != [] {
      var n := |inputs| - 1;
      StateIsTheLatestReport(strategy, inputs[..n]);
      assert inputs[n] in inputs;
      if inputs[n].Received? {
        ReductionShows(Replay(strategy, inputs[..n]), strategy, inputs[n].event, inputs[n].generation, inputs[n].matched,
                       Reports(inputs[..n]));
      }
    }
  }
}
