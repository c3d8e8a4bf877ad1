/** The display module's state machine: the statics of src/ui.c as the fields
    of one object, its drawing calls recorded as an event trace, and the
    collaborators' answers passed in as arguments. */
module Ui {
  import opened UiTypes
  import opened UiLookups
  import opened UiScheduler
  import opened UiPanel

  /** What the collaborators report during one `ui_update` call: the frame
      counter maintained by the vertical-blank handler, the synth and PSG
      busy masks, the MIDI engine's device-channel table, timing, dynamic
      mode and last unknown messages, the synth's parameters, the transport's
      mode, baud rate, buffer space and traffic counts, and the next queued
      log entry. */
  datatype Inputs = Inputs(
    frame: u16,
    synthBusy: u8, psgBusy: u8,
    mappings: seq<DeviceChannel>,
    channels: seq<FmChannel>, global: Global,
    timing: Timing,
    commMode: CommMode, baudRate: int, bufferAvailable: int,
    log: Option<LogEntry>,
    idleCount: u16, busyCount: u16,
    dynamicMode: bool,
    unknownStatus: u8, unknownCc: ControlChange)

  /** The device-channel table has its ten entries and each FM entry names one of the six FM channels. */
  predicate WellFormedTable(table: seq<DeviceChannel>)
  {
    && |table| == DEV_CHANS
    && forall k :: 0 <= k <= DEV_CHAN_MAX_FM ==> table[k].number < MAX_FM_CHANS
  }

  /** The synth holds six FM channels of four operators each. */
  predicate WellFormedChannels(channels: seq<FmChannel>)
  {
    && |channels| == MAX_FM_CHANS
    && forall k :: 0 <= k < |channels| ==> WellFormedChannel(channels[k])
  }

  predicate WellFormedInputs(inputs: Inputs)
  {
    WellFormedTable(inputs.mappings) && WellFormedChannels(inputs.channels)
  }

  /** A channel the lookup returns, other than the sentinel, is an FM channel. */
  lemma FmChanInRange(table: seq<DeviceChannel>, midiChan: u8)
    requires WellFormedTable(table)
    ensures FmChanForMidiChan(table, midiChan) != UNKNOWN_FM_CHANNEL ==>
      FmChanForMidiChan(table, midiChan) < MAX_FM_CHANS
  {
  }

  /** The transport-mode names, indexed as `MODES_TEXT`: all seven characters
      wide, so each overwrites the previous one completely. */
  function CommModeText(mode: CommMode): (text: string)
    ensures |text| == 7
  {
    match mode
    case Discovery => "Waiting"
    case Everdrive => "ED USB "
    case Serial => "Serial "
    case OtherMode => "Unknown"
  }

  /** What `printCommMode` prints while the transport is not yet established:
      the baud rate first for a serial link, then the mode name. */
  function CommModeEvents(mode: CommMode, baudRate: int): (r: seq<Event>)
    ensures |r| >= 1 && r[|r| - 1] == DrawCommMode(CommModeText(mode))
  {
    if mode == Serial then [DrawBaudRate(baudRate), DrawCommMode(CommModeText(mode))]
    else [DrawCommMode(CommModeText(mode))]
  }

  /** The baud rate is printed exactly for a serial link. */
  lemma CommModeBaudRateIffSerial(mode: CommMode, baudRate: int)
    ensures (exists k :: 0 <= k < |CommModeEvents(mode, baudRate)| && CommModeEvents(mode, baudRate)[k] == DrawBaudRate(baudRate))
      <==> mode == Serial
  {
    var r := CommModeEvents(mode, baudRate);
    if mode == Serial {
      assert r[0] == DrawBaudRate(baudRate);
    }
  }

  /** The row the log line index names after a message is drawn: after the
      third message the area is cleared and drawing restarts at row 0. */
  function LogRow(logLine: u8): (row: u8)
    ensures row < MAX_LOG_LINES
    ensures logLine < MAX_LOG_LINES ==> row == logLine
  {
    if logLine >= MAX_LOG_LINES then 0 else logLine
  }

  /** The log line index after n messages have been shown, starting from 0. */
  function LogLineAfter(n: nat): (line: u8)
    ensures line <= MAX_LOG_LINES
  {
    if n == 0 then 0 else LogRow(LogLineAfter(n - 1)) + 1
  }

  /** The n-th message (counting from 0) is drawn on row n mod 3, and the log
      area is cleared just before it exactly when n is a non-zero multiple of 3. */
  lemma {:induction false} LogRowsCycle(n: nat)
    ensures LogRow(LogLineAfter(n)) == n % MAX_LOG_LINES
    ensures (LogLineAfter(n) >= MAX_LOG_LINES) <==> (n > 0 && n % MAX_LOG_LINES == 0)
  {
    if n > 0 {
      LogRowsCycle(n - 1);
      ModSucc(n - 1, MAX_LOG_LINES);
    }
  }

  /** Fills `midiChans` with the one-based MIDI channel of every device channel. */
  method PopulateMappings(midiChans: array<u8>, table: seq<DeviceChannel>)
    requires midiChans.Length == DEV_CHANS && |table| == DEV_CHANS
    modifies midiChans
    ensures midiChans[..] == UiMappings(table)
  {
    for i := 0 to DEV_CHANS
      invariant midiChans[..i] == MappingsUpTo(table, i)
    {
      midiChans[i] := MidiChannelForUi(table, i);
      assert midiChans[..i + 1] == midiChans[..i] + [midiChans[i]];
    }
    assert midiChans[..] == midiChans[..DEV_CHANS];
  }

  /** One of the eleven checks of an operator: the value is printed on the
      next free row when it differs from the cached one or a full refresh is
      due, and becomes the cached value either way. `done` are the checks
      made before it on this operator. */
  method CheckOperatorField(ghost done: seq<Check>, field: OperatorField, value: u8, cached: u8,
                            force: bool, op: nat, events: seq<Event>, line: nat)
    returns (events': seq<Event>, line': nat, cached': u8)
    requires events == Emit(done, op, 4) && line == 4 + |events|
    ensures events' == Emit(done + [Check(field, value, value != cached || force)], op, 4)
    ensures line' == 4 + |events'|
    ensures cached' == value
  {
    ghost var check := Check(field, value, value != cached || force);
    events', line' := events, line;
    if value != cached || force {
      events' := events' + [DrawOperatorValue(field, value, op, line')];
      line' := line' + 1;
    }
    cached' := value;
    EmitAppend(done, [check], op, 4);
  }

  /** The values one operator's checks print, and the cache entry they leave:
      each check prints on the next free row and updates the cached field.
      The cache entry's fields are the locals named after them. */
  method RefreshOperator(oper: Operator, last: Operator, force: bool, op: nat)
    returns (events: seq<Event>, cached: Operator)
    ensures events == OperatorRefresh(oper, last, force, op)
    ensures cached == oper
  {
    ghost var done;
    var line, totalLevel, detune, multiple, rateScaling, amplitudeModulation;
    events, line, done, totalLevel, detune, multiple, rateScaling, amplitudeModulation :=
      RefreshOperatorHead(oper, last, force, op);
    var firstDecayRate, secondaryDecayRate, secondaryAmplitude, releaseRate, ssgEg;
    events, firstDecayRate, secondaryDecayRate, secondaryAmplitude, releaseRate, ssgEg :=
      RefreshOperatorTail(oper, last, force, op, done, events, line);
    OperatorChecksInOrder(oper, last, force);
    cached := Operator(totalLevel, detune, multiple, rateScaling, amplitudeModulation,
                       firstDecayRate, secondaryDecayRate, secondaryAmplitude, releaseRate, ssgEg);
  }

  /** The first five checks of an operator: total level, detune, multiple,
      rate scaling and amplitude modulation. */
  method RefreshOperatorHead(oper: Operator, last: Operator, force: bool, op: nat)
    returns (events: seq<Event>, line: nat, ghost done: seq<Check>,
             totalLevel: u8, detune: u8, multiple: u8, rateScaling: u8, amplitudeModulation: u8)
    ensures done ==
      [Check(TotalLevel, oper.totalLevel, oper.totalLevel != last.totalLevel || force)]
      + [Check(Detune, oper.detune, oper.detune != last.detune || force)]
      + [Check(Multiple, oper.multiple, oper.multiple != last.multiple || force)]
      + [Check(RateScaling, oper.rateScaling, oper.rateScaling != last.rateScaling || force)]
      + [Check(AmplitudeModulation, oper.amplitudeModulation, oper.amplitudeModulation != last.amplitudeModulation || force)]
    ensures events == Emit(done, op, 4) && line == 4 + |events|
    ensures totalLevel == oper.totalLevel && detune == oper.detune && multiple == oper.multiple
    ensures rateScaling == oper.rateScaling && amplitudeModulation == oper.amplitudeModulation
  {
    done, line := [], 4;
    events := [];
    events, line, totalLevel := CheckOperatorField(done, TotalLevel, oper.totalLevel, last.totalLevel, force, op, events, line);
    done := done + [Check(TotalLevel, oper.totalLevel, oper.totalLevel != last.totalLevel || force)];
    events, line, detune := CheckOperatorField(done, Detune, oper.detune, last.detune, force, op, events, line);
    done := done + [Check(Detune, oper.detune, oper.detune != last.detune || force)];
    events, line, multiple := CheckOperatorField(done, Multiple, oper.multiple, last.multiple, force, op, events, line);
    done := done + [Check(Multiple, oper.multiple, oper.multiple != last.multiple || force)];
    events, line, rateScaling := CheckOperatorField(done, RateScaling, oper.rateScaling, last.rateScaling, force, op, events, line);
    done := done + [Check(RateScaling, oper.rateScaling, oper.rateScaling != last.rateScaling || force)];
    events, line, amplitudeModulation := CheckOperatorField(done, AmplitudeModulation, oper.amplitudeModulation, last.amplitudeModulation, force, op, events, line);
    done := done + [Check(AmplitudeModulation, oper.amplitudeModulation, oper.amplitudeModulation != last.amplitudeModulation || force)];
  }

  /** The remaining six checks of an operator: the decay rates, the
      secondary amplitude, the release rate twice (the second time against
      the value the first check has just cached) and the SSG-EG setting. */
  method RefreshOperatorTail(oper: Operator, last: Operator, force: bool, op: nat,
                             ghost done: seq<Check>, events: seq<Event>, line: nat)
    returns (events': seq<Event>, firstDecayRate: u8, secondaryDecayRate: u8, secondaryAmplitude: u8,
             releaseRate: u8, ssgEg: u8)
    requires events == Emit(done, op, 4) && line == 4 + |events|
    ensures events' == Emit(done
        + [Check(FirstDecayRate, oper.firstDecayRate, oper.firstDecayRate != last.firstDecayRate || force)]
        + [Check(SecondaryDecayRate, oper.secondaryDecayRate, oper.secondaryDecayRate != last.secondaryDecayRate || force)]
        + [Check(SecondaryAmplitude, oper.secondaryAmplitude, oper.secondaryAmplitude != last.secondaryAmplitude || force)]
        + [Check(ReleaseRate, oper.releaseRate, oper.releaseRate != last.releaseRate || force)]
        + [Check(ReleaseRate, oper.releaseRate, oper.releaseRate != releaseRate || force)]
        + [Check(SsgEg, oper.ssgEg, oper.ssgEg != last.ssgEg || force)], op, 4)
    ensures firstDecayRate == oper.firstDecayRate && secondaryDecayRate == oper.secondaryDecayRate
    ensures secondaryAmplitude == oper.secondaryAmplitude && releaseRate == oper.releaseRate && ssgEg == oper.ssgEg
  {
    ghost var d := done;
    var l := line;
    events' := events;
    events', l, firstDecayRate := CheckOperatorField(d, FirstDecayRate, oper.firstDecayRate, last.firstDecayRate, force, op, events', l);
    d := d + [Check(FirstDecayRate, oper.firstDecayRate, oper.firstDecayRate != last.firstDecayRate || force)];
    events', l, secondaryDecayRate := CheckOperatorField(d, SecondaryDecayRate, oper.secondaryDecayRate, last.secondaryDecayRate, force, op, events', l);
    d := d + [Check(SecondaryDecayRate, oper.secondaryDecayRate, oper.secondaryDecayRate != last.secondaryDecayRate || force)];
    events', l, secondaryAmplitude := CheckOperatorField(d, SecondaryAmplitude, oper.secondaryAmplitude, last.secondaryAmplitude, force, op, events', l);
    d := d + [Check(SecondaryAmplitude, oper.secondaryAmplitude, oper.secondaryAmplitude != last.secondaryAmplitude || force)];
    events', l, releaseRate := CheckOperatorField(d, ReleaseRate, oper.releaseRate, last.releaseRate, force, op, events', l);
    d := d + [Check(ReleaseRate, oper.releaseRate, oper.releaseRate != last.releaseRate || force)];
    events', l, releaseRate := CheckOperatorField(d, ReleaseRate, oper.releaseRate, releaseRate, force, op, events', l);
    d := d + [Check(ReleaseRate, oper.releaseRate, oper.releaseRate != releaseRate || force)];
    events', l, ssgEg := CheckOperatorField(d, SsgEg, oper.ssgEg, last.ssgEg, force, op, events', l);
    d := d + [Check(SsgEg, oper.ssgEg, oper.ssgEg != last.ssgEg || force)];
  }

  /** One channel-level check, the k-th: the item is printed with its current
      value when that differs from the cached one or a refresh is forced, and
      the value is cached either way. */
  method CheckItem(cur: Panel, last: Panel, force: bool, k: nat, item: PanelItem, value: u8, cached: u8, events: seq<Event>)
    returns (events': seq<Event>, cached': u8)
    requires k < |PanelItems| && PanelItems[k] == item
    requires LatchFires(cur, last, force, item) == (value != cached || force)
    requires events == Latches(cur, last, force, k)
    ensures events' == Latches(cur, last, force, k + 1)
    ensures cached' == value
  {
    events' := events;
    if value != cached || force {
      events' := events' + [ItemEvent(cur, item)];
    }
    cached' := value;
  }

  /** The channel-level checks of `updateFmValues`, in source order, on the
      values: each prints its item when it differs from the cached value or a
      refresh is forced, and caches it. The second algorithm check, for the
      diagram, compares against the algorithm the first has just cached. The
      new cache holds the current channel-level values and the old operators. */
  method RefreshChannel(cur: Panel, last: Panel, force: bool) returns (events: seq<Event>, cached: Panel)
    ensures events == ChannelRefresh(cur, last, force)
    ensures cached == Panel(cur.midiChan, cur.fmChan, cur.channel.(operators := last.channel.operators), cur.global)
  {
    var midiChan, fmChan, algorithm, feedback, lfoEnable;
    events, midiChan, fmChan, algorithm, feedback, lfoEnable := RefreshChannelHead(cur, last, force);
    var lfoFrequency, ams, fms, stereo;
    events, lfoFrequency, ams, fms, stereo, algorithm := RefreshChannelTail(cur, last, force, algorithm, events);
    cached := Panel(midiChan, fmChan,
                    FmChannel(algorithm, feedback, ams, fms, stereo, last.channel.operators),
                    Global(lfoEnable, lfoFrequency));
  }

  /** The first five channel-level checks: MIDI channel, FM channel,
      algorithm, feedback and LFO enable. */
  method RefreshChannelHead(cur: Panel, last: Panel, force: bool)
    returns (events: seq<Event>, midiChan: u8, fmChan: u8, algorithm: u8, feedback: u8, lfoEnable: u8)
    ensures events == Latches(cur, last, force, 5)
    ensures midiChan == cur.midiChan && fmChan == cur.fmChan
    ensures algorithm == cur.channel.algorithm && feedback == cur.channel.feedback
    ensures lfoEnable == cur.global.lfoEnable
  {
    midiChan, fmChan := last.midiChan, last.fmChan;
    algorithm, feedback, lfoEnable := last.channel.algorithm, last.channel.feedback, last.global.lfoEnable;
    events := [];
    events, midiChan := CheckItem(cur, last, force, 0, MidiChanItem, cur.midiChan, midiChan, events);
    events, fmChan := CheckItem(cur, last, force, 1, FmChanItem, cur.fmChan, fmChan, events);
    events, algorithm := CheckItem(cur, last, force, 2, AlgorithmItem, cur.channel.algorithm, algorithm, events);
    events, feedback := CheckItem(cur, last, force, 3, FeedbackItem, cur.channel.feedback, feedback, events);
    events, lfoEnable := CheckItem(cur, last, force, 4, LfoEnableItem, cur.global.lfoEnable, lfoEnable, events);
  }

  /** The remaining channel-level checks: LFO frequency, amplitude and
      frequency modulation sensitivity, stereo, and the diagram, whose check
      compares against the algorithm the first algorithm check cached. */
  method RefreshChannelTail(cur: Panel, last: Panel, force: bool, algorithm: u8, events: seq<Event>)
    returns (events': seq<Event>, lfoFrequency: u8, ams: u8, fms: u8, stereo: u8, algorithm': u8)
    requires algorithm == cur.channel.algorithm
    requires events == Latches(cur, last, force, 5)
    ensures events' == Latches(cur, last, force, 10)
    ensures lfoFrequency == cur.global.lfoFrequency && ams == cur.channel.ams
    ensures fms == cur.channel.fms && stereo == cur.channel.stereo
    ensures algorithm' == cur.channel.algorithm
  {
    lfoFrequency, ams, fms, stereo := last.global.lfoFrequency, last.channel.ams, last.channel.fms, last.channel.stereo;
    events' := events;
    events', lfoFrequency := CheckItem(cur, last, force, 5, LfoFrequencyItem, cur.global.lfoFrequency, lfoFrequency, events');
    events', ams := CheckItem(cur, last, force, 6, AmsItem, cur.channel.ams, ams, events');
    events', fms := CheckItem(cur, last, force, 7, FmsItem, cur.channel.fms, fms, events');
    events', stereo := CheckItem(cur, last, force, 8, StereoItem, cur.channel.stereo, stereo, events');
    events', algorithm' := CheckItem(cur, last, force, 9, DiagramItem, cur.channel.algorithm, algorithm, events');
  }

  /** The per-operator loop of `updateFmValues`: the checks of operators 0 to
      3 in turn, each against its cache entry, which then holds the operator. */
  method RefreshOperators(cur: seq<Operator>, last: seq<Operator>, force: bool)
    returns (events: seq<Event>, cached: seq<Operator>)
    requires |cur| == MAX_FM_OPERATORS && |last| == MAX_FM_OPERATORS
    ensures events == OperatorsRefresh(cur, last, force, MAX_FM_OPERATORS)
    ensures cached == cur
  {
    events, cached := [], last;
    for op := 0 to MAX_FM_OPERATORS
      invariant |cached| == MAX_FM_OPERATORS
      invariant forall j :: 0 <= j < op ==> cached[j] == cur[j]
      invariant forall j :: op <= j < MAX_FM_OPERATORS ==> cached[j] == last[j]
      invariant events == OperatorsRefresh(cur, last, force, op)
    {
      var e, c := RefreshOperator(cur[op], cached[op], force, op);
      events := events + e;
      cached := cached[op := c];
    }
  }
}
