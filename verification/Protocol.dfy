/** Typed commands, their frames, the rules that recognize their responses, and the
  * decoding of application frames. */
module Protocol {
  import opened Models
  import opened Frame

  datatype Model = H7123 | H712C | H7124 | H7129

  /** How the startup fan mode is reported. */
  datatype Startup = SelectorZero | SelectorPair | Direct

  datatype FanTemplate = Fan3a | Fan33

  /** The part of a validated profile that the codec reads. */
  datatype Profile = Profile(model: Model, autoParameter: byte, startup: Startup, fan: FanTemplate)

  datatype Command =
    | SetPower(on: bool)
    | SetFanMode(mode: FanMode)
    | SetLightPower(lit: bool)
    | SetLightBrightness(percent: int)
    | SetLightColor(red: int, green: int, blue: int)

  datatype ProtocolError = UnsupportedStrategy | UnsupportedMode | BadBrightness | BadColor | BadFrame(e: FrameError)

  // ---- encoding ----

  function FanPrefix(profile: Profile): seq<byte> {
    if profile.fan == Fan3a then [0x3a, 0x05] else [0x33, 0x05]
  }

  /** Mode code, manual level and Auto parameter of a mode on the wire. */
  function FanPayload(profile: Profile, mode: FanMode): seq<byte> {
    match mode
    case Low => [1, 1, 0, 0]
    case Medium => [1, 2, 0, 0]
    case High => [1, 3, 0, 0]
    case Sleep => [5, 0, 0, 0]
    case Auto => [3, 0, 0, profile.autoParameter]
    case Turbo => [7, 0, 0, 0]
  }

  predicate Supports(profile: Profile, mode: FanMode) {
    match mode
    case Auto => profile.model != H712C
    case Turbo => profile.model != H7123
    case _ => true
  }

  function Framed(content: seq<byte>): Result<seq<byte>, ProtocolError> {
    var f := BuildFrame(content);
    if f.Ok? then Ok(f.value) else Err(BadFrame(f.error))
  }

  function BoolByte(b: bool): byte {
    if b then 1 else 0
  }

  predicate IsByte(x: int) {
    0 <= x <= 255
  }

  /** The bytes of a command before padding and checksum, or why it is refused. */
  function Content(profile: Profile, command: Command): (r: Result<seq<byte>, ProtocolError>)
    ensures r.Ok? ==> |r.value| <= 7
  {
    match command
    case SetPower(on) => Ok([0x33, 0x01, BoolByte(on)])
    case SetFanMode(mode) =>
      if profile.fan != (if profile.model == H712C then Fan33 else Fan3a) then Err(UnsupportedStrategy)
      else if !Supports(profile, mode) then Err(UnsupportedMode)
      else Ok(FanPrefix(profile) + FanPayload(profile, mode))
    case SetLightPower(lit) => Ok([0x3a, 0x1b, 0x01, 0x01, BoolByte(lit)])
    case SetLightBrightness(percent) =>
      if !(1 <= percent <= 100) then Err(BadBrightness)
      else Ok([0x3a, 0x1b, 0x01, 0x02, percent as byte])
    case SetLightColor(red, green, blue) =>
      if !IsByte(red) || !IsByte(green) || !IsByte(blue) then Err(BadColor)
      else Ok([0x3a, 0x1b, 0x05, 0x0d, red as byte, green as byte, blue as byte])
  }

  function Encode(profile: Profile, command: Command): Result<seq<byte>, ProtocolError> {
    var content := Content(profile, command);
    if content.Err? then Err(content.error) else Framed(content.value)
  }

  // ---- response rules ----

  type Offset = x: int | 0 <= x <= 18

  datatype ResponseKind =
    | Exact | ValueByte | ZeroPayload | Prefix | PrefixSelector | Fragments | Metadata | Fields

  datatype ResponseSpec = ResponseSpec(
    kind: ResponseKind,
    prefix: seq<byte>,
    selector: seq<byte>,
    exact: seq<byte>,
    exactAlternatives: seq<seq<byte>>,
    fragments: seq<byte>,
    allowedPrefixes: seq<seq<byte>>,
    expectedFields: seq<(Offset, byte)>,
    allowedValues: seq<byte>)

  const NO_RULE := ResponseSpec(Fields, [], [], [], [], [], [], [], [])

  function FieldsRule(prefixes: seq<seq<byte>>, fields: seq<(Offset, byte)>): ResponseSpec {
    NO_RULE.(allowedPrefixes := prefixes, expectedFields := fields)
  }

  function FanFields(mode: FanMode, frame: seq<byte>): seq<(Offset, byte)>
    requires |frame| == FRAME_LENGTH
  {
    match mode
    case Auto => [(2, frame[2]), (5, frame[5])]
    case Sleep => [(2, frame[2])]
    case Turbo => [(2, frame[2])]
    case _ => [(2, frame[2]), (3, frame[3])]
  }

  function ResponseForCommand(command: Command, frame: seq<byte>): ResponseSpec
    requires |frame| == FRAME_LENGTH
    requires command.SetLightBrightness? ==> IsByte(command.percent)
  {
    match command
    case SetPower(on) => FieldsRule([[0xaa, 0x01]], [(2, BoolByte(on))])
    case SetFanMode(mode) =>
      FieldsRule([[0xee, 0x05]], FanFields(mode, frame)).(exactAlternatives := [frame])
    case SetLightPower(lit) =>
      FieldsRule([[0xaa, 0x1b], [0x3a, 0x1b], [0xee, 0x1b]], [(2, 1), (3, BoolByte(lit))])
    case SetLightBrightness(percent) =>
      FieldsRule([[0xaa, 0x1b], [0x3a, 0x1b], [0xee, 0x1b]], [(2, 1), (4, percent as byte)])
    case SetLightColor(_, _, _) =>
      FieldsRule([[0x3a, 0x1b]], [(2, frame[2]), (3, frame[3]), (4, frame[4]), (5, frame[5]), (6, frame[6])])
  }

  datatype Request = Request(name: string, frame: seq<byte>, response: ResponseSpec)

  function CommandName(command: Command): string {
    match command
    case SetPower(_) => "SetPower"
    case SetFanMode(_) => "SetFanMode"
    case SetLightPower(_) => "SetNightLightPower"
    case SetLightBrightness(_) => "SetNightLightBrightness"
    case SetLightColor(_, _, _) => "SetNightLightColor"
  }

  /** A command is refused only for its content; an accepted one becomes a valid
    * frame that carries that content and zeros up to the checksum. */
  lemma EncodedFramesAreFrames(profile: Profile, command: Command)
    ensures var e, c := Encode(profile, command), Content(profile, command);
      && (e.Ok? <==> c.Ok?)
      && (e.Ok? ==>
        && IsFrame(e.value) && |e.value| == FRAME_LENGTH
        && e.value[..|c.value|] == c.value
        && forall i | |c.value| <= i < CONTENT_LENGTH :: e.value[i] == 0)
  {
    var c := Content(profile, command);
    if c.Ok? {
      FramedCarries(c.value);
    }
  }

  lemma FramedCarries(content: seq<byte>)
    requires |content| <= 7
    ensures var e := Framed(content);
      e.Ok? && IsFrame(e.value) && |e.value| == FRAME_LENGTH && e.value[..|content|] == content
      && forall i | |content| <= i < CONTENT_LENGTH :: e.value[i] == 0
  {
    BuiltFramesValidate(content);
  }

  /** The template, mode code, manual level and Auto parameter in an encoded fan frame. */
  lemma FanFrameBytes(profile: Profile, mode: FanMode)
    requires Encode(profile, SetFanMode(mode)).Ok?
    ensures var f, p := Encode(profile, SetFanMode(mode)).value, FanPayload(profile, mode);
      && |f| == FRAME_LENGTH && IsFrame(f)
      && f[0] == FanPrefix(profile)[0] && f[1] == 5
      && f[2] == p[0] && f[3] == p[1] && f[5] == p[3]
  {
    EncodedFramesAreFrames(profile, SetFanMode(mode));
    var f, c := Encode(profile, SetFanMode(mode)).value, Content(profile, SetFanMode(mode)).value;
    assert forall i | 0 <= i < |c| :: f[i] == f[..|c|][i];
  }

  /** The transaction for a command: its frame and completion rule. H7123 also
    * accepts an aa 05 report for a fan mode. */
  function CommandRequest(profile: Profile, command: Command): Result<Request, ProtocolError> {
    var frame := Encode(profile, command);
    if frame.Err? then Err(frame.error)
    else
      EncodedFramesAreFrames(profile, command);
      var rule := ResponseForCommand(command, frame.value);
      var extended :=
        if profile.startup == Direct && command.SetFanMode?
        then rule.(allowedPrefixes := rule.allowedPrefixes + [[0xaa, 0x05]]) else rule;
      Ok(Request(CommandName(command), frame.value, extended))
  }

  // ---- decoding ----

  datatype Event =
    | DeviceState(power: Option<bool>, statusFlags: byte, volatileState: byte)
    | FanUpdate(reported: Option<FanMode>, modeCode: byte, manualLevel: byte, parameter: byte)
    | StartupFan(selector: byte, code: Option<byte>, level: Option<byte>, configuration: Option<byte>,
                 autoParameter: Option<byte>)
    | LightState(light: Option<bool>, brightness: byte, origin: byte)
    | LightColor(rgb: Option<(byte, byte, byte)>, acknowledgementOnly: bool)
    | AirQuality(pm25: Option<int>, filterLife: byte, unsolicited: bool)
    | RefreshRequested
    | Negotiation(step: byte)
    | Echo
    | Unknown

  function DecodeBool(v: byte): Option<bool> {
    if v == 0 then Some(false) else if v == 1 then Some(true) else None
  }

  function DecodeFanMode(data: seq<byte>, profile: Profile): Option<FanMode>
    requires |data| == FRAME_LENGTH
  {
    if data[2] == 1 then
      if data[3] == 1 then Some(Low) else if data[3] == 2 then Some(Medium)
      else if data[3] == 3 then Some(High) else None
    else if data[2] == 3 then if data[5] == profile.autoParameter then Some(Auto) else None
    else if data[2] == 5 then Some(Sleep)
    else if data[2] == 7 then Some(Turbo)
    else None
  }

  function FanEvent(data: seq<byte>, profile: Profile): Event
    requires |data| == FRAME_LENGTH
  {
    FanUpdate(DecodeFanMode(data, profile), data[2], data[3], data[5])
  }

  function DecodeFrame(data: seq<byte>, profile: Profile): Event
    requires |data| == FRAME_LENGTH
  {
    var prefix, command := data[0], data[1];
    if (profile.model == H7123 || profile.model == H712C) && (command == 0x19 || command == 0x1b) then Unknown
    else if prefix == 0xaa && command == 0x01 then DeviceState(DecodeBool(data[2]), data[4], data[6])
    else if prefix == 0xaa && command == 0x05 && profile.startup == Direct then FanEvent(data, profile)
    else if prefix == 0xaa && command == 0x05 then
      StartupFan(data[2],
                 if data[2] == 0 then Some(data[3]) else None,
                 if data[2] == 0 then Some(data[4]) else None,
                 if data[2] == 1 then Some(data[3]) else None,
                 if data[2] == 3 then Some(data[5]) else None)
    else if prefix == 0xee && command == 0x05 then FanEvent(data, profile)
    else if command == 0x1b && data[2] == 0x01 && (prefix == 0xaa || prefix == 0x3a || prefix == 0xee) then
      LightState(DecodeBool(data[3]), data[4], prefix)
    else if command == 0x1b && data[2] == 0x05 && (prefix == 0xaa || prefix == 0x3a) then
      LightColor(if data[3] == 0x0d then Some((data[4], data[5], data[6])) else None, prefix == 0x3a)
    else if command == 0x19 && (prefix == 0xaa || prefix == 0xee) then
      var raw := data[3] as int * 256 + data[4] as int;
      AirQuality(if raw <= 999 then Some(raw) else None, data[7], prefix == 0xee)
    else if prefix == 0xee && command == 0xaa then RefreshRequested
    else if prefix == 0xe7 then Negotiation(command)
    else if prefix == 0x33 || prefix == 0x3a then Echo
    else Unknown
  }

  function Decode(frame: seq<byte>, profile: Profile): Result<Event, FrameError> {
    var v := ValidateFrame(frame);
    if v.Err? then Err(v.error) else Ok(DecodeFrame(frame, profile))
  }
}
