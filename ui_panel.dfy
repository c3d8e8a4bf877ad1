/** What the FM parameter panel redraws in one refresh (`updateFmValues`),
    as a function of the current parameters, the cached copy of what is on
    screen and the force flag. */
module UiPanel {
  import opened UiTypes
  import opened UiLookups

  /** What the panel shows: the selected MIDI and FM channel and the parameters. */
  datatype Panel = Panel(midiChan: u8, fmChan: u8, channel: FmChannel, global: Global)

  predicate WellFormedPanel(p: Panel)
  {
    WellFormedChannel(p.channel)
  }

  /** One operator-row check: the field it tests, the value it would print and
      whether it prints. */
  datatype Check = Check(field: OperatorField, value: u8, redraw: bool)

  /** The eleven checks made for one operator, in source order. Each prints
      its field when the field differs from the cache or a refresh is forced,
      except the repeated release-rate check: it compares against the value
      the first release-rate check has just cached, so only the force flag
      makes it print. */
  function OperatorChecks(cur: Operator, last: Operator, force: bool): seq<Check>
  {
    [ Check(TotalLevel, cur.totalLevel, cur.totalLevel != last.totalLevel || force),
      Check(Detune, cur.detune, cur.detune != last.detune || force),
      Check(Multiple, cur.multiple, cur.multiple != last.multiple || force),
      Check(RateScaling, cur.rateScaling, cur.rateScaling != last.rateScaling || force),
      Check(AmplitudeModulation, cur.amplitudeModulation, cur.amplitudeModulation != last.amplitudeModulation || force),
      Check(FirstDecayRate, cur.firstDecayRate, cur.firstDecayRate != last.firstDecayRate || force),
      Check(SecondaryDecayRate, cur.secondaryDecayRate, cur.secondaryDecayRate != last.secondaryDecayRate || force),
      Check(SecondaryAmplitude, cur.secondaryAmplitude, cur.secondaryAmplitude != last.secondaryAmplitude || force),
      Check(ReleaseRate, cur.releaseRate, cur.releaseRate != last.releaseRate || force),
      Check(ReleaseRate, cur.releaseRate, force),
      Check(SsgEg, cur.ssgEg, cur.ssgEg != last.ssgEg || force) ]
  }

  /** The checks one after the other, as the source makes them. */
  lemma OperatorChecksInOrder(cur: Operator, last: Operator, force: bool)
    ensures OperatorChecks(cur, last, force) ==
      [Check(TotalLevel, cur.totalLevel, cur.totalLevel != last.totalLevel || force)]
      + [Check(Detune, cur.detune, cur.detune != last.detune || force)]
      + [Check(Multiple, cur.multiple, cur.multiple != last.multiple || force)]
      + [Check(RateScaling, cur.rateScaling, cur.rateScaling != last.rateScaling || force)]
      + [Check(AmplitudeModulation, cur.amplitudeModulation, cur.amplitudeModulation != last.amplitudeModulation || force)]
      + [Check(FirstDecayRate, cur.firstDecayRate, cur.firstDecayRate != last.firstDecayRate || force)]
      + [Check(SecondaryDecayRate, cur.secondaryDecayRate, cur.secondaryDecayRate != last.secondaryDecayRate || force)]
      + [Check(SecondaryAmplitude, cur.secondaryAmplitude, cur.secondaryAmplitude != last.secondaryAmplitude || force)]
      + [Check(ReleaseRate, cur.releaseRate, cur.releaseRate != last.releaseRate || force)]
      + [Check(ReleaseRate, cur.releaseRate, force)]
      + [Check(SsgEg, cur.ssgEg, cur.ssgEg != last.ssgEg || force)]
  {
  }

  /** Printing two runs of checks one after the other: the second run starts
      on the row after the last value the first one printed. */
  lemma {:induction false} EmitAppend(a: seq<Check>, b: seq<Check>, op: nat, line: nat)
    ensures Emit(a + b, op, line) == Emit(a, op, line) + Emit(b, op, line + |Emit(a, op, line)|)
  {
    if a != [] {
      assert (a + b)[1..] == a[1..] + b;
      EmitAppend(a[1..], b, op, if a[0].redraw then line + 1 else line);
    } else {
      assert a + b == b;
    }
  }

  /** The checks that print, in order. */
  function Redrawn(checks: seq<Check>): seq<Check>
  {
    if checks == [] then []
    else (if checks[0].redraw then [checks[0]] else []) + Redrawn(checks[1..])
  }

  /** Prints the checks that redraw, each on the next row: the row advances
      only when something is printed, as `line++` does. */
  function Emit(checks: seq<Check>, op: nat, line: nat): seq<Event>
  {
    if checks == [] then []
    else if checks[0].redraw then
      [DrawOperatorValue(checks[0].field, checks[0].value, op, line)] + Emit(checks[1..], op, line + 1)
    else Emit(checks[1..], op, line)
  }

  /** The k-th value printed goes to row `line + k`, whatever row its field's
      heading is on. */
  lemma {:induction false} EmitRows(checks: seq<Check>, op: nat, line: nat)
    ensures |Emit(checks, op, line)| == |Redrawn(checks)|
    ensures forall k :: 0 <= k < |Redrawn(checks)| ==>
      Emit(checks, op, line)[k] == DrawOperatorValue(Redrawn(checks)[k].field, Redrawn(checks)[k].value, op, line + k)
  {
    if checks != [] {
      EmitRows(checks[1..], op, line + 1);
      EmitRows(checks[1..], op, line);
    }
  }

  /** A field is printed by some check exactly when one of its checks redraws. */
  lemma {:induction false} EmitDrawsField(checks: seq<Check>, op: nat, line: nat, f: OperatorField)
    ensures (exists e :: e in Emit(checks, op, line) && e.DrawOperatorValue? && e.field == f)
        <==> (exists k :: 0 <= k < |checks| && checks[k].field == f && checks[k].redraw)
  {
    if checks != [] {
      var rest := Emit(checks[1..], op, line + (if checks[0].redraw then 1 else 0));
      EmitDrawsField(checks[1..], op, line + (if checks[0].redraw then 1 else 0), f);
      assert Emit(checks, op, line) == (if checks[0].redraw then [DrawOperatorValue(checks[0].field, checks[0].value, op, line)] else []) + rest;
      if exists k :: 0 <= k < |checks[1..]| && checks[1..][k].field == f && checks[1..][k].redraw {
        var k :| 0 <= k < |checks[1..]| && checks[1..][k].field == f && checks[1..][k].redraw;
        assert checks[k + 1].field == f && checks[k + 1].redraw;
      }
      if exists k :: 0 <= k < |checks| && checks[k].field == f && checks[k].redraw {
        var k :| 0 <= k < |checks| && checks[k].field == f && checks[k].redraw;
        if k > 0 {
          assert checks[1..][k - 1].field == f && checks[1..][k - 1].redraw;
        }
      }
    }
  }

  /** Every event Emit produces is an operator value of operator `op`. */
  lemma {:induction false} EmitOperator(checks: seq<Check>, op: nat, line: nat)
    ensures forall e :: e in Emit(checks, op, line) ==> e.DrawOperatorValue? && e.op == op
  {
    if checks != [] {
      EmitOperator(checks[1..], op, line + 1);
      EmitOperator(checks[1..], op, line);
    }
  }

  /** What one operator's checks print, starting on row 4. */
  function OperatorRefresh(cur: Operator, last: Operator, force: bool, op: nat): seq<Event>
  {
    Emit(OperatorChecks(cur, last, force), op, 4)
  }

  /** Every check prints its field's current value; all but the repeated
      release-rate check print exactly when the field changed or a refresh is forced. */
  lemma ChecksShape(cur: Operator, last: Operator, force: bool)
    ensures |OperatorChecks(cur, last, force)| == 11
    ensures forall j :: 0 <= j < 11 ==>
      OperatorChecks(cur, last, force)[j].value == FieldOf(cur, OperatorChecks(cur, last, force)[j].field)
    ensures forall j :: 0 <= j < 11 && j != 9 ==>
      OperatorChecks(cur, last, force)[j].redraw ==
        (FieldOf(cur, OperatorChecks(cur, last, force)[j].field) != FieldOf(last, OperatorChecks(cur, last, force)[j].field) || force)
    ensures OperatorChecks(cur, last, force)[9] == Check(ReleaseRate, cur.releaseRate, force)
  {
  }

  /** An operator field other than the release rate is printed exactly when it
      changed or a refresh is forced. */
  lemma OperatorRedrawIffChanged(cur: Operator, last: Operator, force: bool, op: nat, f: OperatorField)
    requires f != ReleaseRate
    ensures (exists e :: e in OperatorRefresh(cur, last, force, op) && e.DrawOperatorValue? && e.field == f)
        <==> (FieldOf(cur, f) != FieldOf(last, f) || force)
  {
    var checks := OperatorChecks(cur, last, force);
    EmitDrawsField(checks, op, 4, f);
    ChecksShape(cur, last, force);
    var k: nat := match f
      case TotalLevel => 0
      case Detune => 1
      case Multiple => 2
      case RateScaling => 3
      case AmplitudeModulation => 4
      case FirstDecayRate => 5
      case SecondaryDecayRate => 6
      case SecondaryAmplitude => 7
      case SsgEg => 10;
    assert checks[k].field == f;
  }

  /** The release rate is printed exactly when it changed or a refresh is forced. */
  lemma ReleaseRateRedrawIffChanged(cur: Operator, last: Operator, force: bool, op: nat)
    ensures (exists e :: e in OperatorRefresh(cur, last, force, op) && e.DrawOperatorValue? && e.field == ReleaseRate)
        <==> (cur.releaseRate != last.releaseRate || force)
  {
    var checks := OperatorChecks(cur, last, force);
    EmitDrawsField(checks, op, 4, ReleaseRate);
    assert checks[8].field == ReleaseRate;
    assert forall j :: 0 <= j < 11 && checks[j].field == ReleaseRate ==> j == 8 || j == 9;
  }

  /** A forced refresh prints all eleven checks on rows 4..14: the release
      rate twice (rows 12 and 13) and SSG-EG one row below the last heading. */
  lemma ForcedOperatorRows(cur: Operator, last: Operator, op: nat)
    ensures OperatorRefresh(cur, last, true, op) == [
      DrawOperatorValue(TotalLevel, cur.totalLevel, op, 4),
      DrawOperatorValue(Detune, cur.detune, op, 5),
      DrawOperatorValue(Multiple, cur.multiple, op, 6),
      DrawOperatorValue(RateScaling, cur.rateScaling, op, 7),
      DrawOperatorValue(AmplitudeModulation, cur.amplitudeModulation, op, 8),
      DrawOperatorValue(FirstDecayRate, cur.firstDecayRate, op, 9),
      DrawOperatorValue(SecondaryDecayRate, cur.secondaryDecayRate, op, 10),
      DrawOperatorValue(SecondaryAmplitude, cur.secondaryAmplitude, op, 11),
      DrawOperatorValue(ReleaseRate, cur.releaseRate, op, 12),
      DrawOperatorValue(ReleaseRate, cur.releaseRate, op, 13),
      DrawOperatorValue(SsgEg, cur.ssgEg, op, 14) ]
  {
    var checks := OperatorChecks(cur, last, true);
    assert Redrawn(checks) == checks by { AllRedrawn(checks); }
    EmitRows(checks, op, 4);
  }

  lemma {:induction false} AllRedrawn(checks: seq<Check>)
    requires forall k :: 0 <= k < |checks| ==> checks[k].redraw
    ensures Redrawn(checks) == checks
  {
    if checks != [] {
      AllRedrawn(checks[1..]);
    }
  }

  lemma {:induction false} NoneRedrawn(checks: seq<Check>, op: nat, line: nat)
    requires forall k :: 0 <= k < |checks| ==> !checks[k].redraw
    ensures Emit(checks, op, line) == []
  {
    if checks != [] {
      NoneRedrawn(checks[1..], op, line);
    }
  }

  /** An unchanged operator prints nothing unless forced. */
  lemma OperatorUnchangedSilent(o: Operator, op: nat)
    ensures OperatorRefresh(o, o, false, op) == []
  {
    NoneRedrawn(OperatorChecks(o, o, false), op, 4);
  }

  /** What the per-operator loop prints for operators 0..n-1. */
  function OperatorsRefresh(cur: seq<Operator>, last: seq<Operator>, force: bool, n: nat): seq<Event>
    requires n <= |cur| && n <= |last|
  {
    if n == 0 then []
    else OperatorsRefresh(cur, last, force, n - 1) + OperatorRefresh(cur[n - 1], last[n - 1], force, n - 1)
  }

  /** A field of operator `op` is printed exactly when it changed or a refresh is forced. */
  lemma {:induction false} OperatorsRedrawIffChanged(cur: seq<Operator>, last: seq<Operator>, force: bool, n: nat, op: nat, f: OperatorField)
    requires n <= |cur| && n <= |last| && op < n
    ensures (exists e :: e in OperatorsRefresh(cur, last, force, n) && e.DrawOperatorValue? && e.op == op && e.field == f)
        <==> (FieldOf(cur[op], f) != FieldOf(last[op], f) || force)
  {
    var before := OperatorsRefresh(cur, last, force, n - 1);
    var here := OperatorRefresh(cur[n - 1], last[n - 1], force, n - 1);
    EmitOperator(OperatorChecks(cur[n - 1], last[n - 1], force), n - 1, 4);
    if op == n - 1 {
      OperatorsOnlyBelow(cur, last, force, n - 1);
      if f == ReleaseRate {
        ReleaseRateRedrawIffChanged(cur[op], last[op], force, op);
      } else {
        OperatorRedrawIffChanged(cur[op], last[op], force, op, f);
      }
    } else {
      OperatorsRedrawIffChanged(cur, last, force, n - 1, op, f);
    }
  }

  /** The loop's events for operators 0..n-1 name only those operators. */
  lemma {:induction false} OperatorsOnlyBelow(cur: seq<Operator>, last: seq<Operator>, force: bool, n: nat)
    requires n <= |cur| && n <= |last|
    ensures forall e :: e in OperatorsRefresh(cur, last, force, n) ==> e.DrawOperatorValue? && e.op < n
  {
    if n > 0 {
      OperatorsOnlyBelow(cur, last, force, n - 1);
      EmitOperator(OperatorChecks(cur[n - 1], last[n - 1], force), n - 1, 4);
    }
  }

  lemma {:induction false} OperatorsUnchangedSilent(ops: seq<Operator>, n: nat)
    requires n <= |ops|
    ensures OperatorsRefresh(ops, ops, false, n) == []
  {
    if n > 0 {
      OperatorsUnchangedSilent(ops, n - 1);
      OperatorUnchangedSilent(ops[n - 1], n - 1);
    }
  }

  /** A one-event latch: the event when the condition holds, nothing otherwise. */
  function When(c: bool, e: Event): seq<Event>
  {
    if c then [e] else []
  }

  /** The channel-level items in the order `updateFmValues` checks them. The
      algorithm is checked a second time, for the diagram, after the first
      check has cached it, so the diagram is shown only on a forced refresh. */
  const PanelItems: seq<PanelItem> :=
    [MidiChanItem, FmChanItem, AlgorithmItem, FeedbackItem, LfoEnableItem,
     LfoFrequencyItem, AmsItem, FmsItem, StereoItem, DiagramItem]

  /** What the channel-level checks print, in source order: each item's latch
      prints the item's current value when it fires. */
  function ChannelRefresh(cur: Panel, last: Panel, force: bool): seq<Event>
  {
    Latches(cur, last, force, |PanelItems|)
  }

  /** Where an item stands in the checking order. */
  function ItemIndex(item: PanelItem): (k: nat)
    ensures k < |PanelItems| && PanelItems[k] == item
  {
    match item
    case MidiChanItem => 0
    case FmChanItem => 1
    case AlgorithmItem => 2
    case FeedbackItem => 3
    case LfoEnableItem => 4
    case LfoFrequencyItem => 5
    case AmsItem => 6
    case FmsItem => 7
    case StereoItem => 8
    case DiagramItem => 9
  }

  /** The latches of the first n items, one after the other. */
  function Latches(cur: Panel, last: Panel, force: bool, n: nat): seq<Event>
    requires n <= |PanelItems|
  {
    if n == 0 then [] else Latches(cur, last, force, n - 1) + Latch(cur, last, force, PanelItems[n - 1])
  }

  /** One channel-level check. */
  function Latch(cur: Panel, last: Panel, force: bool, item: PanelItem): seq<Event>
  {
    When(LatchFires(cur, last, force, item), ItemEvent(cur, item))
  }

  /** Everything one `updateFmValues` call prints. */
  function PanelRefresh(cur: Panel, last: Panel, force: bool): seq<Event>
    requires WellFormedPanel(cur) && WellFormedPanel(last)
  {
    ChannelRefresh(cur, last, force)
    + OperatorsRefresh(cur.channel.operators, last.channel.operators, force, MAX_FM_OPERATORS)
  }

  /** Redraw only if changed: when the cache already matches and no refresh is
      forced, the panel prints nothing, so a second refresh after a first one is silent. */
  lemma PanelUnchangedSilent(p: Panel)
    requires WellFormedPanel(p)
    ensures PanelRefresh(p, p, false) == []
  {
    LatchesUnchangedSilent(p, |PanelItems|);
    OperatorsUnchangedSilent(p.channel.operators, MAX_FM_OPERATORS);
  }

  lemma {:induction false} LatchesUnchangedSilent(p: Panel, n: nat)
    requires n <= |PanelItems|
    ensures Latches(p, p, false, n) == []
  {
    if n > 0 {
      LatchesUnchangedSilent(p, n - 1);
    }
  }

  /** The channel-level items of the panel. */
  datatype PanelItem =
    | MidiChanItem | FmChanItem | AlgorithmItem | FeedbackItem | LfoEnableItem
    | LfoFrequencyItem | AmsItem | FmsItem | StereoItem | DiagramItem

  /** The channel-level item an event redraws, if any. */
  function ItemOf(e: Event): Option<PanelItem>
  {
    match e
    case DrawPanelMidiChannel(_) => Some(MidiChanItem)
    case DrawPanelFmChannel(_) => Some(FmChanItem)
    case DrawAlgorithm(_) => Some(AlgorithmItem)
    case DrawFeedback(_) => Some(FeedbackItem)
    case DrawLfoEnable(_) => Some(LfoEnableItem)
    case DrawLfoFrequency(_) => Some(LfoFrequencyItem)
    case DrawAms(_) => Some(AmsItem)
    case DrawFms(_) => Some(FmsItem)
    case DrawStereo(_) => Some(StereoItem)
    case ShowAlgorithmDiagram(_) => Some(DiagramItem)
    case _ => None
  }

  /** The item's value differs between the current parameters and the cache;
      the diagram stands for the algorithm. */
  predicate ItemChanged(cur: Panel, last: Panel, item: PanelItem)
  {
    match item
    case MidiChanItem => cur.midiChan != last.midiChan
    case FmChanItem => cur.fmChan != last.fmChan
    case AlgorithmItem | DiagramItem => cur.channel.algorithm != last.channel.algorithm
    case FeedbackItem => cur.channel.feedback != last.channel.feedback
    case LfoEnableItem => cur.global.lfoEnable != last.global.lfoEnable
    case LfoFrequencyItem => cur.global.lfoFrequency != last.global.lfoFrequency
    case AmsItem => cur.channel.ams != last.channel.ams
    case FmsItem => cur.channel.fms != last.channel.fms
    case StereoItem => cur.channel.stereo != last.channel.stereo
  }

  /** The event that redraws a channel-level item with the current values:
      the MIDI and FM channels are shown one-based. */
  function ItemEvent(p: Panel, item: PanelItem): (e: Event)
    ensures ItemOf(e) == Some(item)
  {
    match item
    case MidiChanItem => DrawPanelMidiChannel(p.midiChan + 1)
    case FmChanItem => DrawPanelFmChannel(p.fmChan + 1)
    case AlgorithmItem => DrawAlgorithm(p.channel.algorithm)
    case FeedbackItem => DrawFeedback(p.channel.feedback)
    case LfoEnableItem => DrawLfoEnable(LfoEnableText(p.global.lfoEnable))
    case LfoFrequencyItem => DrawLfoFrequency(p.global.lfoFrequency)
    case AmsItem => DrawAms(AmsText(p.channel.ams))
    case FmsItem => DrawFms(p.channel.fms)
    case StereoItem => DrawStereo(StereoText(p.channel.stereo))
    case DiagramItem => ShowAlgorithmDiagram(p.channel.algorithm)
  }

  /** The latch of an item fires: its value changed or the refresh is forced;
      for the diagram, only a forced refresh. */
  predicate LatchFires(cur: Panel, last: Panel, force: bool, item: PanelItem)
  {
    if item == DiagramItem then force else ItemChanged(cur, last, item) || force
  }

  /** An item whose latch fires is redrawn with its current value. */
  lemma ChannelItemShown(cur: Panel, last: Panel, force: bool, item: PanelItem)
    requires LatchFires(cur, last, force, item)
    ensures ItemEvent(cur, item) in ChannelRefresh(cur, last, force)
  {
    LatchesShown(cur, last, force, |PanelItems|, ItemIndex(item));
  }

  lemma {:induction false} LatchesShown(cur: Panel, last: Panel, force: bool, n: nat, k: nat)
    requires k < n <= |PanelItems| && LatchFires(cur, last, force, PanelItems[k])
    ensures ItemEvent(cur, PanelItems[k]) in Latches(cur, last, force, n)
  {
    if k < n - 1 {
      LatchesShown(cur, last, force, n - 1, k);
    }
  }

  /** Every channel-level event redraws some item with its current value, and
      that item's latch fired. */
  lemma ChannelEvents(cur: Panel, last: Panel, force: bool)
    ensures forall e :: e in ChannelRefresh(cur, last, force) ==>
      && ItemOf(e).Some?
      && e == ItemEvent(cur, ItemOf(e).value)
      && LatchFires(cur, last, force, ItemOf(e).value)
  {
    forall e | e in ChannelRefresh(cur, last, force)
      ensures ItemOf(e).Some? && e == ItemEvent(cur, ItemOf(e).value) && LatchFires(cur, last, force, ItemOf(e).value)
    {
      LatchesEvent(cur, last, force, |PanelItems|, e);
    }
  }

  lemma {:induction false} LatchesEvent(cur: Panel, last: Panel, force: bool, n: nat, e: Event)
    requires n <= |PanelItems| && e in Latches(cur, last, force, n)
    ensures ItemOf(e).Some? && e == ItemEvent(cur, ItemOf(e).value) && LatchFires(cur, last, force, ItemOf(e).value)
  {
    if e !in Latch(cur, last, force, PanelItems[n - 1]) {
      LatchesEvent(cur, last, force, n - 1, e);
    }
  }

  /** The channel-level checks print no operator value. */
  lemma ChannelNoOperatorValues(cur: Panel, last: Panel, force: bool)
    ensures forall e :: e in ChannelRefresh(cur, last, force) ==> !e.DrawOperatorValue?
  {
    ChannelEvents(cur, last, force);
  }

  /** The per-operator loop prints no channel-level item. */
  lemma OperatorsNoItems(cur: seq<Operator>, last: seq<Operator>, force: bool, n: nat)
    requires n <= |cur| && n <= |last|
    ensures forall e :: e in OperatorsRefresh(cur, last, force, n) ==> ItemOf(e) == None
  {
    OperatorsOnlyBelow(cur, last, force, n);
  }

  /** Each channel-level item is redrawn exactly when its value changed or a
      refresh is forced, except the algorithm diagram, which is shown exactly
      when a refresh is forced, whether or not the algorithm changed; what is
      drawn is the current value. */
  lemma ChannelRedrawIffChanged(cur: Panel, last: Panel, force: bool, item: PanelItem)
    requires WellFormedPanel(cur) && WellFormedPanel(last)
    ensures item != DiagramItem ==>
      ((exists e :: e in PanelRefresh(cur, last, force) && ItemOf(e) == Some(item)) <==> ItemChanged(cur, last, item) || force)
    ensures item == DiagramItem ==>
      ((exists e :: e in PanelRefresh(cur, last, force) && ItemOf(e) == Some(item)) <==> force)
    ensures forall e :: e in PanelRefresh(cur, last, force) && ItemOf(e) == Some(item) ==> e == ItemEvent(cur, item)
  {
    var ch := ChannelRefresh(cur, last, force);
    var ops := OperatorsRefresh(cur.channel.operators, last.channel.operators, force, MAX_FM_OPERATORS);
    assert PanelRefresh(cur, last, force) == ch + ops;
    ChannelEvents(cur, last, force);
    OperatorsNoItems(cur.channel.operators, last.channel.operators, force, MAX_FM_OPERATORS);
    if LatchFires(cur, last, force, item) {
      ChannelItemShown(cur, last, force, item);
      assert ItemEvent(cur, item) in ch + ops;
    }
  }

  /** A field of operator `op` is printed exactly when it changed or a refresh is forced. */
  lemma PanelOperatorRedrawIffChanged(cur: Panel, last: Panel, force: bool, op: nat, f: OperatorField)
    requires WellFormedPanel(cur) && WellFormedPanel(last) && op < MAX_FM_OPERATORS
    ensures (exists e :: e in PanelRefresh(cur, last, force) && e.DrawOperatorValue? && e.op == op && e.field == f)
        <==> (FieldOf(cur.channel.operators[op], f) != FieldOf(last.channel.operators[op], f) || force)
  {
    var ch := ChannelRefresh(cur, last, force);
    var ops := OperatorsRefresh(cur.channel.operators, last.channel.operators, force, MAX_FM_OPERATORS);
    assert PanelRefresh(cur, last, force) == ch + ops;
    OperatorsRedrawIffChanged(cur.channel.operators, last.channel.operators, force, MAX_FM_OPERATORS, op, f);
    ChannelNoOperatorValues(cur, last, force);
  }
}
