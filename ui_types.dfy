/** Shared vocabulary of the display module: the machine's integer widths,
    the constants of src/ui.c, the values read from collaborators and the
    abstract events that stand for drawing calls. */
module UiTypes {

  /** The C types `u8` and `u16`. */
  type u8 = x: int | 0 <= x < 0x100
  type u16 = x: int | 0 <= x < 0x1_0000

  /** Sentinel returned by the FM channel lookup when no FM channel serves a MIDI channel. */
  const UNKNOWN_FM_CHANNEL: u8 := 0xFF

  /** Size of the device-channel table: six FM channels followed by four PSG channels. */
  const MAX_FM_CHANS: nat := 6
  const MAX_PSG_CHANS: nat := 4
  const DEV_CHANS: nat := MAX_FM_CHANS + MAX_PSG_CHANS
  /** Index of the last FM entry of the device-channel table. */
  const DEV_CHAN_MAX_FM: nat := MAX_FM_CHANS - 1
  const MAX_FM_OPERATORS: nat := 4

  /** Frame-divider periods of the refresh scheduler. */
  const FRAMES_BEFORE_UPDATE_ACTIVITY: nat := 5
  const FRAMES_BEFORE_UPDATE_ERROR: nat := 11
  const FRAMES_BEFORE_UPDATE_LOAD: nat := 47
  const FRAMES_BEFORE_UPDATE_LOAD_PERCENT: nat := 13

  /** Number of log lines shown before the log area is cleared. */
  const MAX_LOG_LINES: nat := 3

  /** Percent above which the load figure is drawn in the warning palette. */
  const LOAD_WARNING_PERCENT: nat := 70

  /** One entry of the device-channel table owned by the MIDI engine. */
  datatype DeviceChannel = DeviceChannel(number: u8, midiChannel: u8)

  /** The value-bearing fields of one FM operator that the parameter panel shows. */
  datatype Operator = Operator(
    totalLevel: u8, detune: u8, multiple: u8, rateScaling: u8,
    amplitudeModulation: u8, firstDecayRate: u8, secondaryDecayRate: u8,
    secondaryAmplitude: u8, releaseRate: u8, ssgEg: u8)

  /** Names the operator field a panel redraw came from. */
  datatype OperatorField =
    | TotalLevel | Detune | Multiple | RateScaling | AmplitudeModulation
    | FirstDecayRate | SecondaryDecayRate | SecondaryAmplitude | ReleaseRate | SsgEg

  function FieldOf(o: Operator, f: OperatorField): u8
  {
    match f
    case TotalLevel => o.totalLevel
    case Detune => o.detune
    case Multiple => o.multiple
    case RateScaling => o.rateScaling
    case AmplitudeModulation => o.amplitudeModulation
    case FirstDecayRate => o.firstDecayRate
    case SecondaryDecayRate => o.secondaryDecayRate
    case SecondaryAmplitude => o.secondaryAmplitude
    case ReleaseRate => o.releaseRate
    case SsgEg => o.ssgEg
  }

  /** The per-channel FM parameters that the panel shows. */
  datatype FmChannel = FmChannel(
    algorithm: u8, feedback: u8, ams: u8, fms: u8, stereo: u8,
    operators: seq<Operator>)

  predicate WellFormedChannel(c: FmChannel)
  {
    |c.operators| == MAX_FM_OPERATORS
  }

  /** The global FM parameters that the panel shows. */
  datatype Global = Global(lfoEnable: u8, lfoFrequency: u8)

  const ZeroOperator: Operator := Operator(0, 0, 0, 0, 0, 0, 0, 0, 0, 0)
  /** The zero-initialised `static FmChannel lastChannel = {}`. */
  const ZeroChannel: FmChannel := FmChannel(0, 0, 0, 0, 0, seq(MAX_FM_OPERATORS, _ => ZeroOperator))
  const ZeroGlobal: Global := Global(0, 0)

  datatype Timing = Timing(bar: u16, barBeat: u16, sixteenth: u16)

  datatype ControlChange = ControlChange(controller: u8, value: u8)

  /** What the transport reports from `comm_mode()`; `OtherMode` is any other value. */
  datatype CommMode = Discovery | Everdrive | Serial | OtherMode

  datatype LogLevel = Info | Warn

  datatype LogEntry = LogEntry(level: LogLevel, msg: string)

  /** Which kind of synth parameter the synth reports as changed. */
  datatype ParameterUpdated = Channel | Lfo

  datatype Option<T> = None | Some(value: T)

  /** Abstract stand-ins for the display's drawing, clearing and sprite calls,
      and for the two calls into other modules (log warnings, counter reset). */
  datatype Event =
    | DrawHeader
    | DrawChannelHeadings
    | ShowKeyActivity(busy: u16)
    | DrawParameterHeadings
    | ClearParameterPanel
    | DrawPanelMidiChannel(shown: int)
    | DrawPanelFmChannel(shown: int)
    | DrawAlgorithm(algorithm: u8)
    | DrawFeedback(feedback: u8)
    | DrawLfoEnable(text: string)
    | DrawLfoFrequency(frequency: u8)
    | DrawAms(text: string)
    | DrawFms(fms: u8)
    | DrawStereo(text: string)
    | ShowAlgorithmDiagram(algorithm: u8)
    | DrawOperatorValue(field: OperatorField, value: u8, op: nat, line: nat)
    | DrawMappings(midiChans: seq<u8>)
    | DrawBeat(timing: Timing)
    | DrawBaudRate(baudRate: int)
    | DrawCommMode(text: string)
    | DrawCommBuffer(free: int)
    | ClearLog
    | DrawLog(warning: bool, msg: string, line: nat)
    | ResetCommCounts
    | DrawLoad(percent: int, warning: bool)
    | DrawDynamicMode(enabled: bool)
    | WarnUnknownStatus(status: u8)
    | WarnUnknownCc(controller: u8, value: u8)
}
