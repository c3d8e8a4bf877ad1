/** The display module as one object: the static variables of src/ui.c are
    its fields, those of the parameter panel gathered in an object of their
    own, and each of its functions a method that reads the collaborators'
    answers from its arguments and appends what it draws to `trace`. */
module UiState {
  import opened UiTypes
  import opened UiLookups
  import opened UiScheduler
  import opened UiPanel
  import opened Ui

  /** The statics of the parameter panel: the selection made by
      `ui_setMidiChannelParametersVisibility`, the FM channel shown, the
      dirty and force flags, and the cache of the values on screen. */
  class ParameterPanel {
    var showChanParameters: bool
    var chanParasMidiChan: u8
    var chanParasFmChan: u8
    var synthParameterValuesDirty: bool
    var lastChanParasFmChan: u8
    var lastChanParasMidiChannel: u8
    var lastChannel: FmChannel
    var lastGlobal: Global
    var forceRefresh: bool

    /** The panel statics' initial values: hidden, nothing selected, clean,
        and an all-zero cache. */
    constructor()
      ensures !showChanParameters && chanParasMidiChan == 0 && chanParasFmChan == 0
      ensures !synthParameterValuesDirty && !forceRefresh
      ensures lastChanParasMidiChannel == 0 && lastChanParasFmChan == 0
      ensures lastChannel == ZeroChannel && lastGlobal == ZeroGlobal
    {
      showChanParameters := false;
      chanParasMidiChan := 0;
      chanParasFmChan := 0;
      synthParameterValuesDirty := false;
      lastChanParasFmChan := 0;
      lastChanParasMidiChannel := 0;
      lastChannel := ZeroChannel;
      lastGlobal := ZeroGlobal;
      forceRefresh := false;
    }
  }

  class Display {
    /** The parameter panel's statics. */
    const panel: ParameterPanel
    var loadPercentSum: u16
    var commInited: bool
    var commSerial: bool
    var lastUpdateFrame: u16
    var logLine: u8
    var activityFrame: u8
    var loadCalculationFrame: u8
    var loadFrame: u8
    var errorFrame: u8
    var lastBusy: u16
    /** The mapping row last drawn. */
    const lastMidiChans: array<u8>
    var lastSixteenth: u16
    var lastDynamicModeStatus: bool
    var lastStatus: u8
    var lastCc: ControlChange
    /** Everything drawn so far, in order. */
    var trace: seq<Event>

    /** The invariant between updates: every frame divider is below its
        period, the log line index is at most 3, the selected FM channel is
        one of the six, a serial link counts as an established transport, the cached
        channel has its four operators, and the load sum holds at most 100 for
        each sample taken since the last report. */
    ghost predicate Valid()
      reads this, panel
    {
      && lastMidiChans.Length == DEV_CHANS
      && activityFrame < FRAMES_BEFORE_UPDATE_ACTIVITY
      && LoadBounded(LoadLatches(loadCalculationFrame, loadPercentSum, loadFrame, lastDynamicModeStatus))
      && errorFrame < FRAMES_BEFORE_UPDATE_ERROR
      && logLine <= MAX_LOG_LINES
      && panel.chanParasFmChan < MAX_FM_CHANS
      && (commSerial ==> commInited)
      && WellFormedChannel(panel.lastChannel)
    }

    /** What the panel shows at present, as cached by `updateFmValues`. */
    function Cache(): Panel
      reads panel`lastChanParasMidiChannel, panel`lastChanParasFmChan, panel`lastChannel, panel`lastGlobal
    {
      Panel(panel.lastChanParasMidiChannel, panel.lastChanParasFmChan, panel.lastChannel, panel.lastGlobal)
    }

    /** The statics' initial values. */
    constructor()
      ensures Valid() && fresh(lastMidiChans) && fresh(panel) && trace == []
      ensures !panel.showChanParameters && loadPercentSum == 0 && !commInited && !commSerial
      ensures lastUpdateFrame == 0 && panel.chanParasMidiChan == 0 && panel.chanParasFmChan == 0
      ensures !panel.synthParameterValuesDirty && !panel.forceRefresh
      ensures Cache() == Panel(0, 0, ZeroChannel, ZeroGlobal)
      ensures logLine == 0 && activityFrame == 0 && loadCalculationFrame == 0 && loadFrame == 0 && errorFrame == 0
      ensures lastBusy == 0 && lastMidiChans[..] == seq(DEV_CHANS, _ => 0)
      ensures lastSixteenth == 0xFFFF && !lastDynamicModeStatus && lastStatus == 0 && lastCc == ControlChange(0, 0)
    {
      panel := new ParameterPanel();
      loadPercentSum := 0;
      commInited := false;
      commSerial := false;
      lastUpdateFrame := 0;
      logLine := 0;
      activityFrame := 0;
      loadCalculationFrame := 0;
      loadFrame := 0;
      errorFrame := 0;
      lastBusy := 0;
      lastMidiChans := new u8[DEV_CHANS](_ => 0);
      lastSixteenth := 0xFFFF;
      lastDynamicModeStatus := false;
      lastStatus := 0;
      lastCc := ControlChange(0, 0);
      trace := [];
    }

    /** `ui_init`: the static screen furniture, then one round of the load,
        beat, transport and mapping printers and the dynamic-mode status. */
    method Init(table: seq<DeviceChannel>, timing: Timing, mode: CommMode, baudRate: int, dynamicMode: bool)
      requires Valid() && |table| == DEV_CHANS
      modifies this`loadPercentSum, this`lastSixteenth, this`commInited, this`commSerial, this`trace, lastMidiChans
      ensures Valid()
      ensures trace == old(trace) + [DrawHeader, DrawChannelHeadings]
        + LoadEvents(old(loadPercentSum))
        + When(timing.sixteenth != old(lastSixteenth), DrawBeat(timing))
        + (if old(commInited) then [] else CommModeEvents(mode, baudRate))
        + When(old(lastMidiChans[..]) != UiMappings(table), DrawMappings(UiMappings(table)))
        + [DrawDynamicMode(dynamicMode)]
      ensures loadPercentSum == 0 && lastSixteenth == timing.sixteenth && lastMidiChans[..] == UiMappings(table)
      ensures old(commInited) ==> commInited == old(commInited) && commSerial == old(commSerial)
      ensures !old(commInited) ==> commInited == (mode == Everdrive || mode == Serial) && commSerial == (old(commSerial) || mode == Serial)
    {
      trace := trace + [DrawHeader, DrawChannelHeadings];
      PrintStatus(table, timing, mode, baudRate);
      trace := trace + [DrawDynamicMode(dynamicMode)];
    }

    /** The four status printers `ui_init` calls in turn: load, beat,
        transport and mapping row. */
    method PrintStatus(table: seq<DeviceChannel>, timing: Timing, mode: CommMode, baudRate: int)
      requires lastMidiChans.Length == DEV_CHANS && (commSerial ==> commInited) && |table| == DEV_CHANS
      modifies this`loadPercentSum, this`lastSixteenth, this`commInited, this`commSerial, this`trace, lastMidiChans
      ensures commSerial ==> commInited
      ensures trace == old(trace)
        + LoadEvents(old(loadPercentSum))
        + When(timing.sixteenth != old(lastSixteenth), DrawBeat(timing))
        + (if old(commInited) then [] else CommModeEvents(mode, baudRate))
        + When(old(lastMidiChans[..]) != UiMappings(table), DrawMappings(UiMappings(table)))
      ensures loadPercentSum == 0 && lastSixteenth == timing.sixteenth && lastMidiChans[..] == UiMappings(table)
      ensures old(commInited) ==> commInited == old(commInited) && commSerial == old(commSerial)
      ensures !old(commInited) ==> commInited == (mode == Everdrive || mode == Serial) && commSerial == (old(commSerial) || mode == Serial)
    {
      PrintLoad();
      PrintBeat(timing);
      PrintCommMode(mode, baudRate);
      PrintMappings(table);
    }

    /** The synth's parameter-change callback: the panel becomes due for a
        refresh when the selected FM channel changed or an LFO setting did. */
    method SynthParameterUpdated(fmChan: u8, updated: ParameterUpdated)
      modifies panel`synthParameterValuesDirty
      ensures panel.synthParameterValuesDirty == (old(panel.synthParameterValuesDirty) || fmChan == panel.chanParasFmChan || updated == Lfo)
      ensures old(Valid()) ==> Valid()
    {
      if fmChan == panel.chanParasFmChan || updated == Lfo {
        panel.synthParameterValuesDirty := true;
      }
    }

    /** `updateKeyOnOff`: the activity sprites are redrawn when the busy mask changed. */
    method UpdateKeyOnOff(synthBusy: u8, psgBusy: u8)
      modifies this`lastBusy, this`trace
      ensures lastBusy == KeyBusyMask(synthBusy, psgBusy)
      ensures trace == old(trace) + When(KeyBusyMask(synthBusy, psgBusy) != old(lastBusy), ShowKeyActivity(KeyBusyMask(synthBusy, psgBusy)))
    {
      var busy := KeyBusyMask(synthBusy, psgBusy);
      if busy != lastBusy {
        trace := trace + [ShowKeyActivity(busy)];
        lastBusy := busy;
      }
    }

    /** `updateFmValues`: the channel-level checks, then the eleven checks of
        each of the four operators, against the cache; afterwards the cache
        holds the current values and the force flag is cleared. */
    method UpdateFmValues(channel: FmChannel, global: Global)
      requires WellFormedChannel(channel) && WellFormedChannel(panel.lastChannel)
      modifies panel`lastChanParasMidiChannel, panel`lastChanParasFmChan, panel`lastChannel, panel`lastGlobal
      modifies panel`forceRefresh, this`trace
      ensures trace == old(trace) + PanelRefresh(Panel(panel.chanParasMidiChan, panel.chanParasFmChan, channel, global), old(Cache()), old(panel.forceRefresh))
      ensures Cache() == Panel(panel.chanParasMidiChan, panel.chanParasFmChan, channel, global) && !panel.forceRefresh
    {
      var cur := Panel(panel.chanParasMidiChan, panel.chanParasFmChan, channel, global);
      var last := Cache();
      var force := panel.forceRefresh;
      var events, cached := RefreshChannel(cur, last, force);
      panel.lastChanParasMidiChannel := cached.midiChan;
      panel.lastChanParasFmChan := cached.fmChan;
      panel.lastChannel := cached.channel;
      panel.lastGlobal := cached.global;

      var opEvents, ops := RefreshOperators(channel.operators, last.channel.operators, force);
      panel.lastChannel := panel.lastChannel.(operators := ops);

      assert events + opEvents == PanelRefresh(cur, last, force);
      panel.forceRefresh := false;
      trace := trace + (events + opEvents);
      assert cur == Panel(panel.chanParasMidiChan, panel.chanParasFmChan, channel, global);
      assert last == old(Cache()) && force == old(panel.forceRefresh);
    }

    /** `updateFmValuesIfChanSelected`: while the panel is shown and the
        selected MIDI channel is served by an FM channel, a change of FM
        channel marks the panel dirty, and a dirty panel is refreshed. */
    method UpdateFmValuesIfChanSelected(table: seq<DeviceChannel>, channels: seq<FmChannel>, global: Global)
      requires WellFormedTable(table) && WellFormedChannels(channels) && WellFormedChannel(panel.lastChannel)
      modifies panel`chanParasFmChan, panel`synthParameterValuesDirty
      modifies panel`lastChanParasMidiChannel, panel`lastChanParasFmChan, panel`lastChannel, panel`lastGlobal
      modifies panel`forceRefresh, this`trace
      ensures WellFormedChannel(panel.lastChannel)
      ensures !panel.showChanParameters || FmChanForMidiChan(table, panel.chanParasMidiChan) == UNKNOWN_FM_CHANNEL ==>
        && panel.chanParasFmChan == old(panel.chanParasFmChan) && panel.synthParameterValuesDirty == old(panel.synthParameterValuesDirty)
        && trace == old(trace) && Cache() == old(Cache()) && panel.forceRefresh == old(panel.forceRefresh)
      ensures panel.showChanParameters && FmChanForMidiChan(table, panel.chanParasMidiChan) != UNKNOWN_FM_CHANNEL ==>
        var chan := FmChanForMidiChan(table, panel.chanParasMidiChan);
        var due := old(panel.synthParameterValuesDirty) || old(panel.chanParasFmChan) != chan;
        && chan < MAX_FM_CHANS && panel.chanParasFmChan == chan && !panel.synthParameterValuesDirty
        && (due ==> && trace == old(trace) + PanelRefresh(Panel(panel.chanParasMidiChan, chan, channels[chan], global), old(Cache()), old(panel.forceRefresh))
                    && Cache() == Panel(panel.chanParasMidiChan, chan, channels[chan], global) && !panel.forceRefresh)
        && (!due ==> trace == old(trace) && Cache() == old(Cache()) && panel.forceRefresh == old(panel.forceRefresh))
      ensures PanelLatches(panel.chanParasFmChan, panel.synthParameterValuesDirty, Cache(), panel.forceRefresh)
        == PanelAfter(PanelLatches(old(panel.chanParasFmChan), old(panel.synthParameterValuesDirty), old(Cache()), old(panel.forceRefresh)),
                      panel.showChanParameters, panel.chanParasMidiChan, table, channels, global)
    {
      if panel.showChanParameters {
        var chan := FmChanForMidiChan(table, panel.chanParasMidiChan);
        if chan != UNKNOWN_FM_CHANNEL {
          FmChanInRange(table, panel.chanParasMidiChan);
          if panel.chanParasFmChan != chan {
            panel.chanParasFmChan := chan;
            panel.synthParameterValuesDirty := true;
          }
          if panel.synthParameterValuesDirty {
            ghost var cache, force, t0 := Cache(), panel.forceRefresh, trace;
            var cur := Panel(panel.chanParasMidiChan, chan, channels[chan], global);
            UpdateFmValues(channels[panel.chanParasFmChan], global);
            panel.synthParameterValuesDirty := false;
            assert trace == t0 + PanelRefresh(cur, cache, force);
          }
        }
      }
    }

    /** `ui_setMidiChannelParametersVisibility`: selects the MIDI channel, draws
        the headings (forcing a full refresh) or clears the panel, and marks it dirty. */
    method SetMidiChannelParametersVisibility(chan: u8, show: bool)
      modifies panel`showChanParameters, panel`chanParasMidiChan, panel`forceRefresh
      modifies panel`synthParameterValuesDirty, this`trace
      ensures panel.showChanParameters == show && panel.chanParasMidiChan == chan && panel.synthParameterValuesDirty
      ensures panel.forceRefresh == (old(panel.forceRefresh) || show)
      ensures trace == old(trace) + [if show then DrawParameterHeadings else ClearParameterPanel]
      ensures old(Valid()) ==> Valid()
    {
      panel.showChanParameters := show;
      panel.chanParasMidiChan := chan;
      if show {
        panel.forceRefresh := true;
        trace := trace + [DrawParameterHeadings];
      } else {
        trace := trace + [ClearParameterPanel];
      }
      panel.synthParameterValuesDirty := true;
    }

    /** `printMappingsIfDirty`: the row is drawn and remembered only when it
        differs from the one last drawn. */
    method PrintMappingsIfDirty(midiChans: array<u8>)
      requires midiChans.Length == DEV_CHANS && lastMidiChans.Length == DEV_CHANS && midiChans != lastMidiChans
      modifies lastMidiChans, this`trace
      ensures lastMidiChans[..] == midiChans[..]
      ensures trace == old(trace) + When(old(lastMidiChans[..]) != midiChans[..], DrawMappings(midiChans[..]))
    {
      if lastMidiChans[..] == midiChans[..] {
        return;
      }
      for i := 0 to DEV_CHANS
        invariant forall j :: 0 <= j < i ==> lastMidiChans[j] == midiChans[j]
        invariant midiChans[..] == old(midiChans[..])
        invariant trace == old(trace)
      {
        lastMidiChans[i] := midiChans[i];
      }
      assert lastMidiChans[..] == midiChans[..];
      trace := trace + [DrawMappings(midiChans[..])];
    }

    /** `printMappings`: the one-based MIDI channel of every device channel,
        drawn when it differs from what is on screen. */
    method PrintMappings(table: seq<DeviceChannel>)
      requires lastMidiChans.Length == DEV_CHANS && |table| == DEV_CHANS
      modifies lastMidiChans, this`trace
      ensures lastMidiChans[..] == UiMappings(table)
      ensures trace == old(trace) + When(old(lastMidiChans[..]) != UiMappings(table), DrawMappings(UiMappings(table)))
    {
      var midiChans := new u8[DEV_CHANS](_ => 0);
      PopulateMappings(midiChans, table);
      PrintMappingsIfDirty(midiChans);
    }

    /** `printBeat`: the position is drawn when the sixteenth changed. */
    method PrintBeat(timing: Timing)
      modifies this`lastSixteenth, this`trace
      ensures lastSixteenth == timing.sixteenth
      ensures trace == old(trace) + When(timing.sixteenth != old(lastSixteenth), DrawBeat(timing))
    {
      if timing.sixteenth != lastSixteenth {
        trace := trace + [DrawBeat(timing)];
        lastSixteenth := timing.sixteenth;
      }
    }

    /** `printCommMode`: until a transport is established the mode is drawn
        (with the baud rate for a serial link); an Everdrive or serial link
        ends the printing for good. */
    method PrintCommMode(mode: CommMode, baudRate: int)
      modifies this`commInited, this`commSerial, this`trace
      ensures old(commInited) ==> trace == old(trace) && commInited && commSerial == old(commSerial)
      ensures !old(commInited) ==>
        && trace == old(trace) + CommModeEvents(mode, baudRate)
        && commInited == (mode == Everdrive || mode == Serial)
        && commSerial == (old(commSerial) || mode == Serial)
    {
      if commInited {
        return;
      }
      match mode {
        case Discovery =>
        case Everdrive =>
          commInited := true;
        case Serial =>
          commInited := true;
          commSerial := true;
          trace := trace + [DrawBaudRate(baudRate)];
        case OtherMode =>
      }
      trace := trace + [DrawCommMode(CommModeText(mode))];
      assert mode == Serial ==> trace == old(trace) + [DrawBaudRate(baudRate), DrawCommMode(CommModeText(mode))];
    }

    /** `printCommBuffer`: the free buffer space, on a serial link only. */
    method PrintCommBuffer(available: int)
      modifies this`trace
      ensures trace == old(trace) + When(commSerial, DrawCommBuffer(available))
    {
      if !commSerial {
        return;
      }
      trace := trace + [DrawCommBuffer(available)];
    }

    /** `printLog`: a dequeued message is drawn on the next log row, after
        clearing the area when all three rows are used. */
    method PrintLog(log: Option<LogEntry>)
      requires logLine <= MAX_LOG_LINES
      modifies this`logLine, this`trace
      ensures trace == old(trace) + LogEvents(old(logLine), log)
      ensures logLine == LogLineAfterLog(old(logLine), log) && logLine <= MAX_LOG_LINES
    {
      if log.None? {
        return;
      }
      if logLine >= MAX_LOG_LINES {
        trace := trace + [ClearLog];
        logLine := 0;
      }
      trace := trace + [DrawLog(log.value.level == Warn, log.value.msg, logLine)];
      logLine := logLine + 1;
    }

    /** `printLoad`: the accumulated sum averaged over three samples is drawn,
        in the warning palette above 70%, the traffic counters are reset and
        the sum starts again from 0. */
    method PrintLoad()
      modifies this`loadPercentSum, this`trace
      ensures loadPercentSum == 0
      ensures trace == old(trace) + LoadEvents(old(loadPercentSum))
    {
      var percent := ReportedLoad(loadPercentSum);
      loadPercentSum := 0;
      trace := trace + [ResetCommCounts, DrawLoad(percent, percent > LOAD_WARNING_PERCENT)];
    }

    /** `printDynamicModeIfNeeded`: the mode is drawn when it changed. */
    method PrintDynamicModeIfNeeded(enabled: bool)
      modifies this`lastDynamicModeStatus, this`trace
      ensures lastDynamicModeStatus == enabled
      ensures trace == old(trace) + When(enabled != old(lastDynamicModeStatus), DrawDynamicMode(enabled))
    {
      if lastDynamicModeStatus != enabled {
        trace := trace + [DrawDynamicMode(enabled)];
        lastDynamicModeStatus := enabled;
      }
    }

    /** `checkLastError`: a new non-zero unknown status and a new non-zero
        unknown controller change are each logged once, and remembered. */
    method CheckLastError(status: u8, cc: ControlChange)
      modifies this`lastStatus, this`lastCc, this`trace
      ensures lastStatus == NextStatus(status, old(lastStatus))
      ensures lastCc == NextCc(cc, old(lastCc))
      ensures trace == old(trace)
        + When(ReportStatus(status, old(lastStatus)), WarnUnknownStatus(status))
        + When(ReportCc(cc, old(lastCc)), WarnUnknownCc(cc.controller, cc.value))
    {
      if status != lastStatus && status != 0 {
        trace := trace + [WarnUnknownStatus(status)];
        lastStatus := status;
      }
      if (cc.controller != lastCc.controller || cc.value != lastCc.value)
        && (cc.controller != 0 || cc.value != 0)
      {
        trace := trace + [WarnUnknownCc(cc.controller, cc.value)];
        lastCc := ControlChange(cc.controller, cc.value);
      }
    }

    /** `ui_update`: nothing happens twice in one frame. Otherwise the key
        activity and the panel are updated, and the four frame dividers fire
        their groups: every 5 updates the mappings, beat, transport, buffer and
        log; every 13 a load sample; every 47 the load report and dynamic mode;
        every 11 the unknown-message check. What the panel and each group
        remember moves as `PanelAfter`, `ActivityAfter`, `LoadAfter` and
        `ErrorAfter` say; the panel selection is kept. */
    method Update(inputs: Inputs)
      requires Valid() && WellFormedInputs(inputs)
      modifies this`lastUpdateFrame, this`lastBusy, panel`chanParasFmChan, panel`synthParameterValuesDirty
      modifies panel`lastChanParasMidiChannel, panel`lastChanParasFmChan, panel`lastChannel, panel`lastGlobal, panel`forceRefresh
      modifies this`activityFrame, lastMidiChans, this`lastSixteenth, this`commInited, this`commSerial, this`logLine
      modifies this`loadCalculationFrame, this`loadPercentSum, this`loadFrame, this`lastDynamicModeStatus
      modifies this`errorFrame, this`lastStatus, this`lastCc, this`trace
      ensures Valid()
      ensures old(trace) <= trace
      ensures inputs.frame == old(lastUpdateFrame) ==> unchanged(this) && unchanged(panel) && unchanged(lastMidiChans)
      ensures inputs.frame != old(lastUpdateFrame) ==> Ticked(inputs)
    {
      if lastUpdateFrame == inputs.frame {
        return;
      }
      Tick(inputs);
    }

    /** What one effective update of `ui_update` leaves behind: the frame is
        marked handled, the key mask is remembered, the panel selection is
        kept, the panel made its step and each of the four frame-divider
        groups made its step. */
    twostate predicate Ticked(inputs: Inputs)
      reads this, lastMidiChans, panel
    {
      && lastUpdateFrame == inputs.frame
      && lastBusy == KeyBusyMask(inputs.synthBusy, inputs.psgBusy)
      && panel.showChanParameters == old(panel.showChanParameters) && panel.chanParasMidiChan == old(panel.chanParasMidiChan)
      && WellFormedTable(inputs.mappings) && WellFormedChannels(inputs.channels)
      && PanelLatches(panel.chanParasFmChan, panel.synthParameterValuesDirty,
                      Panel(panel.lastChanParasMidiChannel, panel.lastChanParasFmChan, panel.lastChannel, panel.lastGlobal), panel.forceRefresh)
         == PanelAfter(PanelLatches(old(panel.chanParasFmChan), old(panel.synthParameterValuesDirty),
                                    Panel(old(panel.lastChanParasMidiChannel), old(panel.lastChanParasFmChan), old(panel.lastChannel), old(panel.lastGlobal)),
                                    old(panel.forceRefresh)),
                       old(panel.showChanParameters), old(panel.chanParasMidiChan), inputs.mappings, inputs.channels, inputs.global)
      && old(activityFrame) < FRAMES_BEFORE_UPDATE_ACTIVITY && |inputs.mappings| == DEV_CHANS
      && ActivityLatches(activityFrame, lastMidiChans[..], lastSixteenth, logLine, commInited, commSerial)
         == ActivityAfter(ActivityLatches(old(activityFrame), old(lastMidiChans[..]), old(lastSixteenth), old(logLine), old(commInited), old(commSerial)),
            inputs)
      && old(loadCalculationFrame) < FRAMES_BEFORE_UPDATE_LOAD_PERCENT && old(loadFrame) < FRAMES_BEFORE_UPDATE_LOAD
      && LoadLatches(loadCalculationFrame, loadPercentSum, loadFrame, lastDynamicModeStatus)
         == LoadAfter(LoadLatches(old(loadCalculationFrame), old(loadPercentSum), old(loadFrame), old(lastDynamicModeStatus)),
            inputs.idleCount, inputs.busyCount, inputs.dynamicMode)
      && old(errorFrame) < FRAMES_BEFORE_UPDATE_ERROR
      && ErrorLatches(errorFrame, lastStatus, lastCc)
         == ErrorAfter(ErrorLatches(old(errorFrame), old(lastStatus), old(lastCc)), inputs.unknownStatus, inputs.unknownCc)
    }

    /** One effective update of `ui_update`, in a frame not yet handled. */
    method Tick(inputs: Inputs)
      requires Valid() && WellFormedInputs(inputs) && inputs.frame != lastUpdateFrame
      modifies this`lastUpdateFrame, this`lastBusy, panel`chanParasFmChan, panel`synthParameterValuesDirty
      modifies panel`lastChanParasMidiChannel, panel`lastChanParasFmChan, panel`lastChannel, panel`lastGlobal, panel`forceRefresh
      modifies this`activityFrame, lastMidiChans, this`lastSixteenth, this`commInited, this`commSerial, this`logLine
      modifies this`loadCalculationFrame, this`loadPercentSum, this`loadFrame, this`lastDynamicModeStatus
      modifies this`errorFrame, this`lastStatus, this`lastCc, this`trace
      ensures Valid()
      ensures old(trace) <= trace
      ensures Ticked(inputs)
    {
      UpdateKeysAndPanel(inputs);
      PeriodicGroups(inputs);
      lastUpdateFrame := inputs.frame;
    }

    /** The three frame-divider groups of `ui_update`, in their order. */
    method PeriodicGroups(inputs: Inputs)
      requires WellFormedInputs(inputs) && lastMidiChans.Length == DEV_CHANS
      requires activityFrame < FRAMES_BEFORE_UPDATE_ACTIVITY && logLine <= MAX_LOG_LINES && (commSerial ==> commInited)
      requires LoadBounded(LoadLatches(loadCalculationFrame, loadPercentSum, loadFrame, lastDynamicModeStatus))
      requires errorFrame < FRAMES_BEFORE_UPDATE_ERROR
      modifies this`activityFrame, lastMidiChans, this`lastSixteenth, this`commInited, this`commSerial, this`logLine
      modifies this`loadCalculationFrame, this`loadPercentSum, this`loadFrame, this`lastDynamicModeStatus
      modifies this`errorFrame, this`lastStatus, this`lastCc, this`trace
      ensures activityFrame < FRAMES_BEFORE_UPDATE_ACTIVITY && logLine <= MAX_LOG_LINES && (commSerial ==> commInited)
      ensures LoadBounded(LoadLatches(loadCalculationFrame, loadPercentSum, loadFrame, lastDynamicModeStatus))
      ensures errorFrame < FRAMES_BEFORE_UPDATE_ERROR && old(trace) <= trace
      ensures
        ActivityLatches(activityFrame, lastMidiChans[..], lastSixteenth, logLine, commInited, commSerial)
        == ActivityAfter(ActivityLatches(old(activityFrame), old(lastMidiChans[..]), old(lastSixteenth), old(logLine), old(commInited), old(commSerial)),
           inputs)
      ensures
        LoadLatches(loadCalculationFrame, loadPercentSum, loadFrame, lastDynamicModeStatus)
        == LoadAfter(LoadLatches(old(loadCalculationFrame), old(loadPercentSum), old(loadFrame), old(lastDynamicModeStatus)),
           inputs.idleCount, inputs.busyCount, inputs.dynamicMode)
      ensures
        ErrorLatches(errorFrame, lastStatus, lastCc)
        == ErrorAfter(ErrorLatches(old(errorFrame), old(lastStatus), old(lastCc)), inputs.unknownStatus, inputs.unknownCc)
    {
      ActivityLatchesStep(inputs);
      LoadLatchesStep(inputs.idleCount, inputs.busyCount, inputs.dynamicMode);
      ErrorLatchesStep(inputs.unknownStatus, inputs.unknownCc);
    }

    /** The load groups of `ui_update`, as far as their statics are concerned. */
    method LoadLatchesStep(idle: u16, busy: u16, dynamicMode: bool)
      requires LoadBounded(LoadLatches(loadCalculationFrame, loadPercentSum, loadFrame, lastDynamicModeStatus))
      modifies this`loadCalculationFrame, this`loadPercentSum, this`loadFrame, this`lastDynamicModeStatus, this`trace
      ensures LoadBounded(LoadLatches(loadCalculationFrame, loadPercentSum, loadFrame, lastDynamicModeStatus)) && old(trace) <= trace
      ensures
        LoadLatches(loadCalculationFrame, loadPercentSum, loadFrame, lastDynamicModeStatus)
        == LoadAfter(LoadLatches(old(loadCalculationFrame), old(loadPercentSum), old(loadFrame), old(lastDynamicModeStatus)),
           idle, busy, dynamicMode)
    {
      LoadMetering(idle, busy, dynamicMode);
    }

    /** The error group of `ui_update`, as far as its statics are concerned. */
    method ErrorLatchesStep(status: u8, cc: ControlChange)
      requires errorFrame < FRAMES_BEFORE_UPDATE_ERROR
      modifies this`errorFrame, this`lastStatus, this`lastCc, this`trace
      ensures errorFrame < FRAMES_BEFORE_UPDATE_ERROR && old(trace) <= trace
      ensures
        ErrorLatches(errorFrame, lastStatus, lastCc)
        == ErrorAfter(ErrorLatches(old(errorFrame), old(lastStatus), old(lastCc)), status, cc)
    {
      ErrorGroup(status, cc);
    }

    /** The first two steps of `ui_update`: the key activity, then the
        parameter panel. What they draw is stated by the two methods called. */
    method UpdateKeysAndPanel(inputs: Inputs)
      requires WellFormedInputs(inputs) && WellFormedChannel(panel.lastChannel) && panel.chanParasFmChan < MAX_FM_CHANS
      modifies this`lastBusy, panel`chanParasFmChan, panel`synthParameterValuesDirty
      modifies panel`lastChanParasMidiChannel, panel`lastChanParasFmChan, panel`lastChannel, panel`lastGlobal
      modifies panel`forceRefresh, this`trace
      ensures WellFormedChannel(panel.lastChannel) && panel.chanParasFmChan < MAX_FM_CHANS && old(trace) <= trace
      ensures lastBusy == KeyBusyMask(inputs.synthBusy, inputs.psgBusy)
      ensures panel.showChanParameters == old(panel.showChanParameters) && panel.chanParasMidiChan == old(panel.chanParasMidiChan)
      ensures PanelLatches(panel.chanParasFmChan, panel.synthParameterValuesDirty,
                     Panel(panel.lastChanParasMidiChannel, panel.lastChanParasFmChan, panel.lastChannel, panel.lastGlobal), panel.forceRefresh)
        == PanelAfter(PanelLatches(old(panel.chanParasFmChan), old(panel.synthParameterValuesDirty),
                                 Panel(old(panel.lastChanParasMidiChannel), old(panel.lastChanParasFmChan), old(panel.lastChannel), old(panel.lastGlobal)),
                                 old(panel.forceRefresh)),
                      old(panel.showChanParameters), old(panel.chanParasMidiChan), inputs.mappings, inputs.channels, inputs.global)
    {
      UpdateKeyOnOff(inputs.synthBusy, inputs.psgBusy);
      UpdateFmValuesIfChanSelected(inputs.mappings, inputs.channels, inputs.global);
    }

    /** The activity group of `ui_update`, every fifth update: the mapping
        row, the beat, the transport, the buffer and the log. */
    method ActivityGroup(inputs: Inputs)
      requires WellFormedInputs(inputs)
      requires activityFrame < FRAMES_BEFORE_UPDATE_ACTIVITY && logLine <= MAX_LOG_LINES
      requires lastMidiChans.Length == DEV_CHANS && (commSerial ==> commInited)
      modifies this`activityFrame, lastMidiChans, this`lastSixteenth, this`commInited, this`commSerial
      modifies this`logLine, this`trace
      ensures activityFrame < FRAMES_BEFORE_UPDATE_ACTIVITY
      ensures logLine <= MAX_LOG_LINES && (commSerial ==> commInited) && old(trace) <= trace
      ensures
        ActivityLatches(activityFrame, lastMidiChans[..], lastSixteenth, logLine, commInited, commSerial)
        == ActivityAfter(ActivityLatches(old(activityFrame), old(lastMidiChans[..]), old(lastSixteenth),
                                         old(logLine), old(commInited), old(commSerial)), inputs)
      ensures Fires(old(activityFrame), FRAMES_BEFORE_UPDATE_ACTIVITY) ==>
        trace == old(trace)
          + ActivityEvents(ActivityLatches(old(activityFrame), old(lastMidiChans[..]), old(lastSixteenth),
                                           old(logLine), old(commInited), old(commSerial)), inputs)
      ensures !Fires(old(activityFrame), FRAMES_BEFORE_UPDATE_ACTIVITY) ==> trace == old(trace)
    {
      activityFrame := activityFrame + 1;
      if activityFrame == FRAMES_BEFORE_UPDATE_ACTIVITY {
        activityFrame := 0;
        ghost var before := ActivityLatches(old(activityFrame), lastMidiChans[..], lastSixteenth, logLine, commInited, commSerial);
        PrintMidiStatus(inputs.mappings, inputs.timing);
        PrintCommStatus(inputs.commMode, inputs.baudRate, inputs.bufferAvailable);
        PrintLog(inputs.log);
        ActivityEventsInOrder(old(trace), before, inputs);
      }
    }

    /** The activity group as `ui_update` relies on it: the step it makes on
        the activity latches. The events drawn are those `ActivityGroup` states. */
    method ActivityLatchesStep(inputs: Inputs)
      requires WellFormedInputs(inputs)
      requires activityFrame < FRAMES_BEFORE_UPDATE_ACTIVITY && logLine <= MAX_LOG_LINES
      requires lastMidiChans.Length == DEV_CHANS && (commSerial ==> commInited)
      modifies this`activityFrame, lastMidiChans, this`lastSixteenth, this`commInited, this`commSerial
      modifies this`logLine, this`trace
      ensures
        ActivityLatches(activityFrame, lastMidiChans[..], lastSixteenth, logLine, commInited, commSerial)
        == ActivityAfter(ActivityLatches(old(activityFrame), old(lastMidiChans[..]), old(lastSixteenth), old(logLine), old(commInited), old(commSerial)),
           inputs)
      ensures activityFrame < FRAMES_BEFORE_UPDATE_ACTIVITY
      ensures logLine <= MAX_LOG_LINES && (commSerial ==> commInited) && old(trace) <= trace
    {
      ActivityGroup(inputs);
    }

    /** The first two printers of the activity group: mapping row and beat. */
    method PrintMidiStatus(table: seq<DeviceChannel>, timing: Timing)
      requires lastMidiChans.Length == DEV_CHANS && |table| == DEV_CHANS
      modifies lastMidiChans, this`lastSixteenth, this`trace
      ensures trace == old(trace)
        + When(old(lastMidiChans[..]) != UiMappings(table), DrawMappings(UiMappings(table)))
        + When(timing.sixteenth != old(lastSixteenth), DrawBeat(timing))
      ensures lastMidiChans[..] == UiMappings(table) && lastSixteenth == timing.sixteenth
    {
      PrintMappings(table);
      PrintBeat(timing);
    }

    /** The transport printers of the activity group: mode, then free buffer. */
    method PrintCommStatus(mode: CommMode, baudRate: int, available: int)
      requires commSerial ==> commInited
      modifies this`commInited, this`commSerial, this`trace
      ensures trace == old(trace)
        + (if old(commInited) then [] else CommModeEvents(mode, baudRate))
        + When(commSerial, DrawCommBuffer(available))
      ensures commSerial ==> commInited
      ensures old(commInited) ==> commInited == old(commInited) && commSerial == old(commSerial)
      ensures !old(commInited) ==> commInited == (mode == Everdrive || mode == Serial) && commSerial == (old(commSerial) || mode == Serial)
    {
      PrintCommMode(mode, baudRate);
      PrintCommBuffer(available);
    }

    /** The two load groups of `ui_update`: a sample every thirteenth update,
        a report every 47th. Between reports the sum holds at most 100 per
        sample taken, and what is reported is at most 133%. */
    method LoadMetering(idle: u16, busy: u16, dynamicMode: bool)
      requires LoadBounded(LoadLatches(loadCalculationFrame, loadPercentSum, loadFrame, lastDynamicModeStatus))
      modifies this`loadCalculationFrame, this`loadPercentSum, this`loadFrame, this`lastDynamicModeStatus, this`trace
      ensures LoadBounded(LoadLatches(loadCalculationFrame, loadPercentSum, loadFrame, lastDynamicModeStatus))
      ensures
        LoadLatches(loadCalculationFrame, loadPercentSum, loadFrame, lastDynamicModeStatus)
        == LoadAfter(LoadLatches(old(loadCalculationFrame), old(loadPercentSum), old(loadFrame), old(lastDynamicModeStatus)),
           idle, busy, dynamicMode)
      ensures !Fires(old(loadFrame), FRAMES_BEFORE_UPDATE_LOAD) ==> trace == old(trace)
      ensures Fires(old(loadFrame), FRAMES_BEFORE_UPDATE_LOAD) ==>
        && trace == old(trace) + LoadEvents(SumAfterSample(old(loadPercentSum), old(loadCalculationFrame), idle, busy))
                    + When(dynamicMode != old(lastDynamicModeStatus), DrawDynamicMode(dynamicMode))
        && ReportedLoad(SumAfterSample(old(loadPercentSum), old(loadCalculationFrame), idle, busy)) <= 133
    {
      LoadSample(idle, busy);
      LoadReport(dynamicMode);
    }

    /** The sampling group of `ui_update`, every thirteenth update: the load
        percentage is added to the sum. The 16-bit sum cannot wrap round:
        with at most four samples in a reporting window it stays at most 400. */
    method LoadSample(idle: u16, busy: u16)
      requires loadFrame < FRAMES_BEFORE_UPDATE_LOAD && loadCalculationFrame < FRAMES_BEFORE_UPDATE_LOAD_PERCENT
      requires loadPercentSum <= 100 * SamplesInWindow(loadFrame, loadCalculationFrame)
      modifies this`loadCalculationFrame, this`loadPercentSum
      ensures loadCalculationFrame == Advance(old(loadCalculationFrame), FRAMES_BEFORE_UPDATE_LOAD_PERCENT)
      ensures loadPercentSum == SumAfterSample(old(loadPercentSum), old(loadCalculationFrame), idle, busy)
      ensures loadPercentSum == old(loadPercentSum)
        + (if Fires(old(loadCalculationFrame), FRAMES_BEFORE_UPDATE_LOAD_PERCENT) then LoadPercent(idle, busy) else 0)
      ensures loadPercentSum <= 100 * SamplesInWindow(loadFrame + 1, loadCalculationFrame)
    {
      SamplesStep(loadFrame, loadCalculationFrame);
      SamplesBound(loadFrame + 1, Advance(loadCalculationFrame, FRAMES_BEFORE_UPDATE_LOAD_PERCENT));
      loadCalculationFrame := loadCalculationFrame + 1;
      if loadCalculationFrame == FRAMES_BEFORE_UPDATE_LOAD_PERCENT {
        loadCalculationFrame := 0;
        loadPercentSum := (loadPercentSum + LoadPercent(idle, busy)) % 0x1_0000;
      }
    }

    /** The reporting group of `ui_update`, every 47th update: the load is
        drawn, at most 133%, and the sum restarts; then the dynamic mode. */
    method LoadReport(dynamicMode: bool)
      requires loadFrame < FRAMES_BEFORE_UPDATE_LOAD && loadCalculationFrame < FRAMES_BEFORE_UPDATE_LOAD_PERCENT
      requires loadPercentSum <= 100 * SamplesInWindow(loadFrame + 1, loadCalculationFrame)
      modifies this`loadFrame, this`loadPercentSum, this`lastDynamicModeStatus, this`trace
      ensures loadFrame == Advance(old(loadFrame), FRAMES_BEFORE_UPDATE_LOAD)
      ensures loadPercentSum <= 100 * SamplesInWindow(loadFrame, loadCalculationFrame)
      ensures !Fires(old(loadFrame), FRAMES_BEFORE_UPDATE_LOAD) ==>
        trace == old(trace) && loadPercentSum == old(loadPercentSum) && lastDynamicModeStatus == old(lastDynamicModeStatus)
      ensures Fires(old(loadFrame), FRAMES_BEFORE_UPDATE_LOAD) ==>
        && loadPercentSum == 0 && lastDynamicModeStatus == dynamicMode
        && trace == old(trace) + LoadEvents(old(loadPercentSum))
                    + When(dynamicMode != old(lastDynamicModeStatus), DrawDynamicMode(dynamicMode))
        && ReportedLoad(old(loadPercentSum)) <= 133
    {
      loadFrame := loadFrame + 1;
      if loadFrame == FRAMES_BEFORE_UPDATE_LOAD {
        ReportedLoadBound(loadPercentSum, loadCalculationFrame);
        loadFrame := 0;
        PrintLoad();
        PrintDynamicModeIfNeeded(dynamicMode);
      }
    }

    /** The error group of `ui_update`, every eleventh update. */
    method ErrorGroup(status: u8, cc: ControlChange)
      requires errorFrame < FRAMES_BEFORE_UPDATE_ERROR
      modifies this`errorFrame, this`lastStatus, this`lastCc, this`trace
      ensures errorFrame < FRAMES_BEFORE_UPDATE_ERROR
      ensures
        ErrorLatches(errorFrame, lastStatus, lastCc)
        == ErrorAfter(ErrorLatches(old(errorFrame), old(lastStatus), old(lastCc)), status, cc)
      ensures !Fires(old(errorFrame), FRAMES_BEFORE_UPDATE_ERROR) ==> trace == old(trace)
      ensures Fires(old(errorFrame), FRAMES_BEFORE_UPDATE_ERROR) ==>
        trace == old(trace)
          + When(ReportStatus(status, old(lastStatus)), WarnUnknownStatus(status))
          + When(ReportCc(cc, old(lastCc)), WarnUnknownCc(cc.controller, cc.value))
    {
      errorFrame := errorFrame + 1;
      if errorFrame == FRAMES_BEFORE_UPDATE_ERROR {
        errorFrame := 0;
        CheckLastError(status, cc);
      }
    }
  }

  /** What printLoad draws for an accumulated load sum. */
  function LoadEvents(sum: u16): (r: seq<Event>)
    ensures |r| == 2 && r[0] == ResetCommCounts && r[1].DrawLoad?
    ensures r[1].percent <= sum / 3 && (r[1].percent > LOAD_WARNING_PERCENT <==> r[1].warning)
  {
    var percent := ReportedLoad(sum);
    [ResetCommCounts, DrawLoad(percent, percent > LOAD_WARNING_PERCENT)]
  }

  /** The statics of the activity group. */
  datatype ActivityLatches = ActivityLatches(frame: u8, row: seq<u8>, sixteenth: u16, logLine: u8, commInited: bool, commSerial: bool)

  /** The statics of the parameter panel that an update may change: the FM
      channel shown, the dirty flag, the cache and the force flag. */
  datatype PanelLatches = PanelLatches(fmChan: u8, dirty: bool, cache: Panel, force: bool)

  /** The step `updateFmValuesIfChanSelected` makes on the panel statics for
      the selection `show`, `midiChan`: none while the panel is hidden or no
      FM channel serves the MIDI channel; otherwise that FM channel is
      selected and, when it changed or the panel is dirty, the cache takes
      the current values and the force flag is cleared. */
  function PanelAfter(p: PanelLatches, show: bool, midiChan: u8, table: seq<DeviceChannel>,
                      channels: seq<FmChannel>, global: Global): PanelLatches
    requires WellFormedTable(table) && WellFormedChannels(channels)
  {
    var chan := FmChanForMidiChan(table, midiChan);
    FmChanInRange(table, midiChan);
    if !show || chan == UNKNOWN_FM_CHANNEL then p
    else if p.dirty || p.fmChan != chan then PanelLatches(chan, false, Panel(midiChan, chan, channels[chan], global), false)
    else p
  }

  /** A second update with the same selection and synth state leaves the
      panel statics as the first left them, so it draws nothing. */
  lemma PanelAfterSettles(p: PanelLatches, show: bool, midiChan: u8, table: seq<DeviceChannel>,
                          channels: seq<FmChannel>, global: Global)
    requires WellFormedTable(table) && WellFormedChannels(channels)
    ensures var q := PanelAfter(p, show, midiChan, table, channels, global);
      PanelAfter(q, show, midiChan, table, channels, global) == q
  {
  }

  /** After the panel is shown for a MIDI channel that an FM channel serves,
      the next update caches exactly that channel's current values, whatever
      was cached before. */
  lemma ShownPanelRefreshed(p: PanelLatches, midiChan: u8, table: seq<DeviceChannel>,
                            channels: seq<FmChannel>, global: Global)
    requires WellFormedTable(table) && WellFormedChannels(channels)
    requires p.dirty && FmChanForMidiChan(table, midiChan) != UNKNOWN_FM_CHANNEL
    ensures var chan := FmChanForMidiChan(table, midiChan);
      && chan < MAX_FM_CHANS
      && PanelAfter(p, true, midiChan, table, channels, global)
         == PanelLatches(chan, false, Panel(midiChan, chan, channels[chan], global), false)
  {
    FmChanInRange(table, midiChan);
  }

  /** The statics of the two load groups. */
  datatype LoadLatches = LoadLatches(calcFrame: u8, sum: u16, frame: u8, dynamicMode: bool)

  /** The load latches between updates: both dividers below their periods and
      at most 100 in the sum for each sample taken since the last report. */
  predicate LoadBounded(l: LoadLatches)
  {
    && l.calcFrame < FRAMES_BEFORE_UPDATE_LOAD_PERCENT
    && l.frame < FRAMES_BEFORE_UPDATE_LOAD
    && l.sum <= 100 * SamplesInWindow(l.frame, l.calcFrame)
  }

  /** The statics of the error group. */
  datatype ErrorLatches = ErrorLatches(frame: u8, status: u8, cc: ControlChange)

  /** The activity latches after one update: every fifth update the mapping
      row and the sixteenth drawn are remembered, the transport latches are
      set if not yet set and the log index moves on when a message is drawn;
      on the other updates only the divider moves. */
  function ActivityAfter(a: ActivityLatches, inputs: Inputs): ActivityLatches
    requires a.frame < FRAMES_BEFORE_UPDATE_ACTIVITY && |inputs.mappings| == DEV_CHANS
  {
    if !Fires(a.frame, FRAMES_BEFORE_UPDATE_ACTIVITY) then a.(frame := a.frame + 1)
    else ActivityLatches(0, UiMappings(inputs.mappings), inputs.timing.sixteenth,
      LogLineAfterLog(a.logLine, inputs.log),
      a.commInited || inputs.commMode == Everdrive || inputs.commMode == Serial,
      if a.commInited then a.commSerial else a.commSerial || inputs.commMode == Serial)
  }

  /** What a firing activity group draws from latches `a`: the mapping row
      and the beat when they differ from those last drawn, the transport
      until one is established, the free buffer on a serial link, and the log. */
  function ActivityEvents(a: ActivityLatches, inputs: Inputs): seq<Event>
    requires |inputs.mappings| == DEV_CHANS
  {
    When(a.row != UiMappings(inputs.mappings), DrawMappings(UiMappings(inputs.mappings)))
    + When(inputs.timing.sixteenth != a.sixteenth, DrawBeat(inputs.timing))
    + (if a.commInited then [] else CommModeEvents(inputs.commMode, inputs.baudRate))
    + When(a.commSerial || (!a.commInited && inputs.commMode == Serial), DrawCommBuffer(inputs.bufferAvailable))
    + LogEvents(a.logLine, inputs.log)
  }

  /** The activity events appended printer by printer. */
  lemma ActivityEventsInOrder(t: seq<Event>, a: ActivityLatches, inputs: Inputs)
    requires |inputs.mappings| == DEV_CHANS
    ensures t
      + When(a.row != UiMappings(inputs.mappings), DrawMappings(UiMappings(inputs.mappings)))
      + When(inputs.timing.sixteenth != a.sixteenth, DrawBeat(inputs.timing))
      + (if a.commInited then [] else CommModeEvents(inputs.commMode, inputs.baudRate))
      + When(a.commSerial || (!a.commInited && inputs.commMode == Serial), DrawCommBuffer(inputs.bufferAvailable))
      + LogEvents(a.logLine, inputs.log)
      == t + ActivityEvents(a, inputs)
  {
    AppendFive(t, When(a.row != UiMappings(inputs.mappings), DrawMappings(UiMappings(inputs.mappings))),
      When(inputs.timing.sixteenth != a.sixteenth, DrawBeat(inputs.timing)),
      if a.commInited then [] else CommModeEvents(inputs.commMode, inputs.baudRate),
      When(a.commSerial || (!a.commInited && inputs.commMode == Serial), DrawCommBuffer(inputs.bufferAvailable)),
      LogEvents(a.logLine, inputs.log));
  }

  lemma AppendFive(t: seq<Event>, p: seq<Event>, q: seq<Event>, r: seq<Event>, u: seq<Event>, v: seq<Event>)
    ensures t + p + q + r + u + v == t + (p + q + r + u + v)
  {
  }

  /** The mapping row and the beat are drawn once: when the activity group
      fires again with the same inputs it draws neither, only the transport
      while none is established, the buffer and the log. */
  lemma ActivityRedrawsOnlyNews(a: ActivityLatches, inputs: Inputs)
    requires a.frame < FRAMES_BEFORE_UPDATE_ACTIVITY && |inputs.mappings| == DEV_CHANS
    requires Fires(a.frame, FRAMES_BEFORE_UPDATE_ACTIVITY)
    ensures ActivityEvents(ActivityAfter(a, inputs), inputs)
      == (if ActivityAfter(a, inputs).commInited then [] else CommModeEvents(inputs.commMode, inputs.baudRate))
         + When(ActivityAfter(a, inputs).commSerial, DrawCommBuffer(inputs.bufferAvailable))
         + LogEvents(ActivityAfter(a, inputs).logLine, inputs.log)
  {
    var a' := ActivityAfter(a, inputs);
    assert When(a'.row != UiMappings(inputs.mappings), DrawMappings(UiMappings(inputs.mappings))) == [];
    assert When(inputs.timing.sixteenth != a'.sixteenth, DrawBeat(inputs.timing)) == [];
    assert !a'.commInited ==> inputs.commMode != Serial;
  }

  /** Once a transport is established the activity group keeps it: the
      latches stay set whatever the inputs, so printCommMode draws nothing more. */
  lemma CommModeLatched(a: ActivityLatches, inputs: Inputs)
    requires a.frame < FRAMES_BEFORE_UPDATE_ACTIVITY && |inputs.mappings| == DEV_CHANS
    requires a.commInited
    ensures ActivityAfter(a, inputs).commInited && ActivityAfter(a, inputs).commSerial == a.commSerial
  {
  }

  /** The activity latches stay within their bounds: the divider below its
      period, the log index at most 3, and a serial link counted as established. */
  lemma ActivityAfterBounded(a: ActivityLatches, inputs: Inputs)
    requires a.frame < FRAMES_BEFORE_UPDATE_ACTIVITY && |inputs.mappings| == DEV_CHANS
    requires a.logLine <= MAX_LOG_LINES && (a.commSerial ==> a.commInited)
    ensures ActivityAfter(a, inputs).frame < FRAMES_BEFORE_UPDATE_ACTIVITY
    ensures ActivityAfter(a, inputs).logLine <= MAX_LOG_LINES
    ensures ActivityAfter(a, inputs).commSerial ==> ActivityAfter(a, inputs).commInited
  {
  }

  /** The load latches after one update: every thirteenth update the load
      percentage is added to the sum; every 47th the sum is reported, zeroed
      and the dynamic mode remembered. */
  function LoadAfter(l: LoadLatches, idle: u16, busy: u16, dynamicMode: bool): LoadLatches
    requires l.calcFrame < FRAMES_BEFORE_UPDATE_LOAD_PERCENT && l.frame < FRAMES_BEFORE_UPDATE_LOAD
  {
    var calcFrame := Advance(l.calcFrame, FRAMES_BEFORE_UPDATE_LOAD_PERCENT) as u8;
    if Fires(l.frame, FRAMES_BEFORE_UPDATE_LOAD) then LoadLatches(calcFrame, 0, 0, dynamicMode)
    else LoadLatches(calcFrame, SumAfterSample(l.sum, l.calcFrame, idle, busy), l.frame + 1, l.dynamicMode)
  }

  /** The load bound is kept by every update, the 16-bit sum never wraps
      round between reports, and a report shows at most 133%. */
  lemma LoadAfterBounded(l: LoadLatches, idle: u16, busy: u16, dynamicMode: bool)
    requires LoadBounded(l)
    ensures LoadBounded(LoadAfter(l, idle, busy, dynamicMode))
    ensures !Fires(l.frame, FRAMES_BEFORE_UPDATE_LOAD) ==>
      LoadAfter(l, idle, busy, dynamicMode).sum
        == l.sum + (if Fires(l.calcFrame, FRAMES_BEFORE_UPDATE_LOAD_PERCENT) then LoadPercent(idle, busy) else 0)
    ensures Fires(l.frame, FRAMES_BEFORE_UPDATE_LOAD) ==>
      ReportedLoad(SumAfterSample(l.sum, l.calcFrame, idle, busy)) <= 133
  {
    SamplesStep(l.frame, l.calcFrame);
    SamplesBound(l.frame + 1, Advance(l.calcFrame, FRAMES_BEFORE_UPDATE_LOAD_PERCENT));
    var sum := SumAfterSample(l.sum, l.calcFrame, idle, busy);
    assert sum == l.sum + (if Fires(l.calcFrame, FRAMES_BEFORE_UPDATE_LOAD_PERCENT) then LoadPercent(idle, busy) else 0);
    if Fires(l.frame, FRAMES_BEFORE_UPDATE_LOAD) {
      ReportedLoadBound(sum, Advance(l.calcFrame, FRAMES_BEFORE_UPDATE_LOAD_PERCENT));
    }
  }

  /** The error latches after one update: every eleventh update the unknown
      status and controller change are remembered as `checkLastError` does. */
  function ErrorAfter(e: ErrorLatches, status: u8, cc: ControlChange): ErrorLatches
    requires e.frame < FRAMES_BEFORE_UPDATE_ERROR
  {
    if Fires(e.frame, FRAMES_BEFORE_UPDATE_ERROR) then ErrorLatches(0, NextStatus(status, e.status), NextCc(cc, e.cc))
    else e.(frame := e.frame + 1)
  }

  /** The load sum after one update's sampling step: the current load is
      added on the thirteenth update, in 16-bit arithmetic. */
  function SumAfterSample(sum: u16, sinceSample: nat, idle: u16, busy: u16): u16
  {
    (sum + (if Fires(sinceSample, FRAMES_BEFORE_UPDATE_LOAD_PERCENT) then LoadPercent(idle, busy) else 0)) % 0x1_0000
  }

  /** What printLog draws: nothing without a message; otherwise the message on
      the next free row, after clearing the area when all three rows are used. */
  function LogEvents(logLine: u8, log: Option<LogEntry>): seq<Event>
  {
    match log
    case None => []
    case Some(entry) =>
      (if logLine >= MAX_LOG_LINES then [ClearLog] else [])
      + [DrawLog(entry.level == Warn, entry.msg, LogRow(logLine))]
  }

  /** The log line index after printLog: advanced past the row used, if a message was drawn. */
  function LogLineAfterLog(logLine: u8, log: Option<LogEntry>): u8
  {
    if log.None? then logLine else LogRow(logLine) + 1
  }

  /** The last unknown status remembered after checkLastError. */
  function NextStatus(status: u8, lastStatus: u8): u8
  {
    if ReportStatus(status, lastStatus) then status else lastStatus
  }

  /** checkLastError logs each unknown status and controller change once:
      a second check with the same values logs nothing. */
  lemma CheckLastErrorOnce(status: u8, lastStatus: u8, cc: ControlChange, lastCc: ControlChange)
    ensures !ReportStatus(status, NextStatus(status, lastStatus))
    ensures !ReportCc(cc, NextCc(cc, lastCc))
  {
  }

  /** The last unknown controller change remembered after checkLastError. */
  function NextCc(cc: ControlChange, lastCc: ControlChange): ControlChange
  {
    if ReportCc(cc, lastCc) then cc else lastCc
  }

  /** An unknown status byte is worth logging: non-zero and not the last one logged. */
  predicate ReportStatus(status: u8, lastStatus: u8)
  {
    status != lastStatus && status != 0
  }

  /** An unknown controller change is worth logging: not all zero and not the last one logged. */
  predicate ReportCc(cc: ControlChange, lastCc: ControlChange)
  {
    cc != lastCc && cc != ControlChange(0, 0)
  }
}
