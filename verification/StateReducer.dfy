/** The cached purifier state and the rules by which decoded events change it. */
module StateReducer {
  import opened Models
  import opened Frame
  import opened Protocol

  datatype PurifierState = PurifierState(
    power: Option<bool>,
    fanMode: Option<FanMode>,
    lightPower: Option<bool>,
    lightBrightness: Option<int>,
    lightRgb: Option<(byte, byte, byte)>,
    pm25: Option<int>,
    filterLife: Option<byte>)

  const UNKNOWN_STATE := PurifierState(None, None, None, None, None, None, None)

  /** The state together with the startup fan-mode assembly: the generation the last
    * relevant event belongs to, and whether a manual level is still to come. */
  datatype Reducer = Reducer(state: PurifierState, generation: Option<int>, awaiting: bool)

  const FRESH_REDUCER := Reducer(UNKNOWN_STATE, None, false)

  // ---- startup fan mode ----

  function ManualMode(level: byte): Option<FanMode> {
    if level == 1 then Some(Low) else if level == 2 then Some(Medium)
    else if level == 3 then Some(High) else None
  }

  function CodedMode(code: byte): Option<FanMode> {
    if code == 3 then Some(Auto) else if code == 5 then Some(Sleep)
    else if code == 7 then Some(Turbo) else None
  }

  function DecodeSelectorZero(code: byte, level: byte): Option<FanMode> {
    if code == 1 then ManualMode(level)
    else if level != 0 then None
    else CodedMode(code)
  }

  /** The catalog name of the startup query a selector answers. */
  function ExpectedRequest(selector: byte): Option<string> {
    if selector == 0 then Some("mode_data_00")
    else if selector == 1 then Some("mode_data_01")
    else if selector == 3 then Some("mode_data_03")
    else None
  }

  predicate Matched(selector: byte, request: Option<string>) {
    ExpectedRequest(selector).Some? && request == ExpectedRequest(selector)
  }

  function WithMode(r: Reducer, mode: Option<FanMode>): Reducer {
    r.(state := r.state.(fanMode := mode))
  }

  /** The second half of a selector pair, if it belongs to the current first half. */
  function SelectorOne(r: Reducer, strategy: Startup, generation: int, level: byte): Reducer {
    var bound := r.(generation := Some(generation));
    if strategy != SelectorPair then bound
    else if !(r.awaiting && r.generation == Some(generation)) then bound
    else WithMode(bound.(awaiting := false), ManualMode(level))
  }

  function SelectorNought(r: Reducer, strategy: Startup, generation: int, code: byte, level: byte): Reducer {
    var cleared := Reducer(r.state, Some(generation), false);
    if strategy == SelectorZero then WithMode(cleared, DecodeSelectorZero(code, level))
    else if code == 1 then WithMode(cleared.(awaiting := true), None)
    else WithMode(cleared, CodedMode(code))
  }

  function ReduceStartup(r: Reducer, strategy: Startup, event: Event, generation: int,
                         matched: Option<string>): Reducer
    requires event.StartupFan? && DecodedStartup(event)
  {
    if !Matched(event.selector, matched) then r
    else if event.selector == 3 then r.(generation := Some(generation))
    else if event.selector == 1 then SelectorOne(r, strategy, generation, event.configuration.value)
    else SelectorNought(r, strategy, generation, event.code.value, event.level.value)
  }

  /** The optional fields the decoder fills in for each selector. */
  predicate DecodedStartup(event: Event)
    requires event.StartupFan?
  {
    && (event.code.Some? <==> event.selector == 0) && (event.level.Some? <==> event.selector == 0)
    && (event.configuration.Some? <==> event.selector == 1)
    && (event.autoParameter.Some? <==> event.selector == 3)
  }

  predicate Decoded(event: Event) {
    event.StartupFan? ==> DecodedStartup(event)
  }

  // ---- every event ----

  function LightChange(state: PurifierState, light: Option<bool>, brightness: byte): PurifierState {
    var s := if light.Some? then state.(lightPower := light) else state;
    if 1 <= brightness as int <= 100 then s.(lightBrightness := Some(brightness as int)) else s
  }

  function Reduce(r: Reducer, strategy: Startup, event: Event, generation: int, matched: Option<string>): Reducer
    requires Decoded(event)
  {
    match event
    case DeviceState(power, _, _) =>
      if power.Some? then r.(state := r.state.(power := power)) else r
    case StartupFan(_, _, _, _, _) => ReduceStartup(r, strategy, event, generation, matched)
    case FanUpdate(mode, _, _, _) => Reducer(r.state.(fanMode := mode), Some(generation), false)
    case LightState(light, brightness, _) => r.(state := LightChange(r.state, light, brightness))
    case LightColor(rgb, acknowledgementOnly) =>
      if rgb.Some? && !acknowledgementOnly then r.(state := r.state.(lightRgb := rgb)) else r
    case AirQuality(pm25, filterLife, _) =>
      r.(state := r.state.(pm25 := pm25, filterLife := Some(filterLife)))
    case RefreshRequested => r
    case Negotiation(_) => r
    case Echo => r
    case Unknown => r
  }

  function ApplyConfirmed(r: Reducer, command: Command, generation: int): Reducer {
    if command.SetFanMode? then Reducer(r.state.(fanMode := Some(command.mode)), Some(generation), false) else r
  }

  function Invalidate(r: Reducer): Reducer {
    Reducer(r.state.(fanMode := None), r.generation, false)
  }

  predicate Satisfied(state: PurifierState, command: Command) {
    match command
    case SetPower(on) => state.power == Some(on)
    case SetFanMode(mode) => state.fanMode == Some(mode)
    case SetLightPower(lit) => state.lightPower == Some(lit)
    case SetLightBrightness(percent) => state.lightBrightness == Some(percent)
    case SetLightColor(_, _, _) => false
  }

  lemma DecodedFramesAreDecoded(frame: seq<byte>, profile: Profile)
    requires |frame| == FRAME_LENGTH
    ensures Decoded(DecodeFrame(frame, profile))
  {
  }

  /** What one reduction reports to the client. */
  datatype Reduction = Reduction(state: PurifierState, changed: bool, refresh: bool)

  /** The owner of the cached state and of the startup assembly. */
  class PurifierStateReducer {
    const strategy: Startup
    const refreshSupported: bool
    var state: PurifierState
    var startupGeneration: Option<int>
    var awaitingManualLevel: bool

    ghost function View(): Reducer
      reads this
    {
      Reducer(state, startupGeneration, awaitingManualLevel)
    }

    constructor (profile: Profile, refreshSupported: bool)
      ensures strategy == profile.startup && this.refreshSupported == refreshSupported
      ensures View() == FRESH_REDUCER
    {
      strategy, this.refreshSupported := profile.startup, refreshSupported;
      state, startupGeneration, awaitingManualLevel := UNKNOWN_STATE, None, false;
    }

    method ReduceEvent(event: Event, generation: int, matched: Option<string>) returns (r: Reduction)
      requires Decoded(event)
      modifies this
      ensures View() == Reduce(old(View()), strategy, event, generation, matched)
      ensures r == Reduction(state, state != old(state), event.RefreshRequested? && refreshSupported)
    {
      var previous := state;
      var refresh := false;
      match event {
      case DeviceState(power, _, _) =>
        if power.Some? {
          state := state.(power := power);
        }
      case StartupFan(_, _, _, _, _) =>
        ApplyStartupFanMode(event, generation, matched);
      case FanUpdate(mode, _, _, _) =>
        awaitingManualLevel := false;
        startupGeneration := Some(generation);
        state := state.(fanMode := mode);
      case LightState(light, brightness, _) =>
        if light.Some? {
          state := state.(lightPower := light);
        }
        if 1 <= brightness as int <= 100 {
          state := state.(lightBrightness := Some(brightness as int));
        }
      case LightColor(rgb, acknowledgementOnly) =>
        if rgb.Some? && !acknowledgementOnly {
          state := state.(lightRgb := rgb);
        }
      case AirQuality(pm25, filterLife, _) =>
        state := state.(pm25 := pm25, filterLife := Some(filterLife));
      case RefreshRequested =>
        refresh := refreshSupported;
      case Negotiation(_) =>
      case Echo =>
      case Unknown =>
      }
      r := Reduction(state, state != previous, refresh);
    }

    method ApplyStartupFanMode(event: Event, generation: int, matched: Option<string>)
      requires event.StartupFan? && DecodedStartup(event)
      modifies this
      ensures View() == ReduceStartup(old(View()), strategy, event, generation, matched)
    {
      if !Matched(event.selector, matched) {
        return;
      }
      if event.selector == 3 {
        startupGeneration := Some(generation);
        return;
      }
      if event.selector == 1 {
        if strategy != SelectorPair {
          startupGeneration := Some(generation);
          return;
        }
        var completesPair := awaitingManualLevel && startupGeneration == Some(generation);
        startupGeneration := Some(generation);
        if completesPair {
          awaitingManualLevel := false;
          state := state.(fanMode := ManualMode(event.configuration.value));
        }
        return;
      }
      awaitingManualLevel := false;
      startupGeneration := Some(generation);
      if strategy == SelectorZero {
        state := state.(fanMode := DecodeSelectorZero(event.code.value, event.level.value));
      } else if event.code.value == 1 {
        awaitingManualLevel := true;
        state := state.(fanMode := None);
      } else {
        state := state.(fanMode := CodedMode(event.code.value));
      }
    }

    method ApplyConfirmedCommand(command: Command, generation: int) returns (r: Reduction)
      modifies this
      ensures View() == ApplyConfirmed(old(View()), command, generation)
      ensures r == Reduction(state, state != old(state), false)
    {
      var previous := state;
      if command.SetFanMode? {
        awaitingManualLevel := false;
        startupGeneration := Some(generation);
        state := state.(fanMode := Some(command.mode));
      }
      r := Reduction(state, state != previous, false);
    }

    method InvalidateConnection() returns (r: Reduction)
      modifies this
      ensures View() == Invalidate(old(View()))
      ensures r == Reduction(state, state != old(state), false)
    {
      var previous := state;
      awaitingManualLevel := false;
      state := state.(fanMode := None);
      r := Reduction(state, state != previous, false);
    }
  }
}
