/** The pure computations of the display module: load percentage, the
    MIDI-to-FM channel lookup, the mapping row and the text lookups. */
module UiLookups {
  import opened UiTypes

  /** Share of busy ticks among all counted ticks, in whole percent
      (truncated), or 0 when nothing was counted. The multiplication is done
      in C `int`, which cannot overflow for 16-bit operands. */
  function LoadPercent(idle: u16, busy: u16): (r: u16)
    ensures r <= 100
    ensures idle == 0 && busy == 0 ==> r == 0
    ensures idle == 0 && busy > 0 ==> r == 100
    ensures busy == 0 ==> r == 0
  {
    if idle == 0 && busy == 0 then 0
    else
      var q := (busy * 100) / (idle + busy);
      PercentFacts(idle, busy, q);
      q
  }

  /** The percentage is the busy share rounded down: r/100 <= busy/(idle+busy) < (r+1)/100. */
  lemma LoadPercentRoundsDown(idle: u16, busy: u16)
    requires idle + busy > 0
    ensures var r := LoadPercent(idle, busy);
      r * (idle + busy) <= busy * 100 < (r + 1) * (idle + busy)
  {
    PercentFacts(idle, busy, (busy * 100) / (idle + busy));
  }

  lemma PercentFacts(idle: nat, busy: nat, q: int)
    requires idle + busy > 0
    requires q == (busy * 100) / (idle + busy)
    ensures 0 <= q <= 100
    ensures q * (idle + busy) <= busy * 100 < (q + 1) * (idle + busy)
    ensures idle == 0 ==> q == 100
    ensures busy == 0 ==> q == 0
  {
    var n, d := busy * 100, idle + busy;
    DivBounds(n, d, q);
    MulMonotone(busy, d, 100);
    assert n <= 100 * d;
    LeFromMul(q, 100, d);
    if idle == 0 {
      assert n == 100 * d;
      LtFromMul(100, q + 1, d);
    }
    if busy == 0 {
      assert n == 0;
    }
  }

  lemma LeFromMul(a: int, b: int, d: nat)
    requires d > 0 && a * d <= b * d
    ensures a <= b
  {
    if a > b {
      MulMonotoneInt(b + 1, a, d);
    }
  }

  lemma LtFromMul(a: int, b: int, d: nat)
    requires d > 0 && a * d < b * d
    ensures a < b
  {
    if a >= b {
      MulMonotoneInt(b, a, d);
    }
  }

  lemma MulMonotoneInt(a: int, b: int, c: nat)
    requires a <= b
    ensures a * c <= b * c
  {
    assert b * c - a * c == (b - a) * c;
  }

  lemma DivBounds(n: nat, d: nat, q: int)
    requires d > 0 && q == n / d
    ensures 0 <= q && q * d <= n < (q + 1) * d
  {
  }

  lemma MulMonotone(a: nat, b: nat, c: nat)
    requires a <= b
    ensures a * c <= b * c
  {
  }

  /** True when some FM entry with index in [from, DEV_CHAN_MAX_FM] is bound to `midiChan`. */
  ghost predicate FmMatchFrom(table: seq<DeviceChannel>, midiChan: u8, from: nat)
    requires |table| > DEV_CHAN_MAX_FM
  {
    exists k :: from <= k <= DEV_CHAN_MAX_FM && table[k].midiChannel == midiChan
  }

  /** Entry k is the first FM entry at or after `from` bound to `midiChan`. */
  ghost predicate FirstFmMatch(table: seq<DeviceChannel>, midiChan: u8, from: nat, k: nat)
    requires |table| > DEV_CHAN_MAX_FM
  {
    && from <= k <= DEV_CHAN_MAX_FM
    && table[k].midiChannel == midiChan
    && forall j :: from <= j < k ==> table[j].midiChannel != midiChan
  }

  /** The scan of the FM part of the table starting at entry `from`. */
  function ScanFm(table: seq<DeviceChannel>, midiChan: u8, from: nat): (r: u8)
    requires |table| > DEV_CHAN_MAX_FM
    decreases DEV_CHAN_MAX_FM + 1 - from
    ensures FmMatchFrom(table, midiChan, from) ==>
      exists k: nat :: FirstFmMatch(table, midiChan, from, k) && r == table[k].number
    ensures !FmMatchFrom(table, midiChan, from) ==> r == UNKNOWN_FM_CHANNEL
  {
    if from > DEV_CHAN_MAX_FM then UNKNOWN_FM_CHANNEL
    else if table[from].midiChannel == midiChan then
      assert FirstFmMatch(table, midiChan, from, from);
      table[from].number
    else
      var r := ScanFm(table, midiChan, from + 1);
      assert FmMatchFrom(table, midiChan, from) ==> FmMatchFrom(table, midiChan, from + 1);
      assert forall k: nat :: FirstFmMatch(table, midiChan, from + 1, k) ==> FirstFmMatch(table, midiChan, from, k);
      r
  }

  /** The FM channel number serving `midiChan`: the `number` of the first of
      the FM entries 0..DEV_CHAN_MAX_FM bound to it, else the sentinel. */
  function FmChanForMidiChan(table: seq<DeviceChannel>, midiChan: u8): (r: u8)
    requires |table| > DEV_CHAN_MAX_FM
    ensures FmMatchFrom(table, midiChan, 0) ==>
      exists k: nat :: FirstFmMatch(table, midiChan, 0, k) && r == table[k].number
    ensures !FmMatchFrom(table, midiChan, 0) ==> r == UNKNOWN_FM_CHANNEL
  {
    ScanFm(table, midiChan, 0)
  }

  /** When no FM entry is numbered with the sentinel, the lookup answers the
      sentinel exactly when no FM entry is bound to `midiChan`. */
  lemma FmChanUnknownIffUnbound(table: seq<DeviceChannel>, midiChan: u8)
    requires |table| > DEV_CHAN_MAX_FM
    requires forall k :: 0 <= k <= DEV_CHAN_MAX_FM ==> table[k].number != UNKNOWN_FM_CHANNEL
    ensures FmChanForMidiChan(table, midiChan) == UNKNOWN_FM_CHANNEL <==> !FmMatchFrom(table, midiChan, 0)
  {
    if FmMatchFrom(table, midiChan, 0) {
      var k: nat :| FirstFmMatch(table, midiChan, 0, k) && FmChanForMidiChan(table, midiChan) == table[k].number;
    }
  }

  /** The scan reads nothing past the FM part of the table. */
  lemma {:induction false} ScanFmIgnoresPsg(t1: seq<DeviceChannel>, t2: seq<DeviceChannel>, midiChan: u8, from: nat)
    requires |t1| > DEV_CHAN_MAX_FM && |t2| > DEV_CHAN_MAX_FM
    requires t1[..DEV_CHAN_MAX_FM + 1] == t2[..DEV_CHAN_MAX_FM + 1]
    decreases DEV_CHAN_MAX_FM + 1 - from
    ensures ScanFm(t1, midiChan, from) == ScanFm(t2, midiChan, from)
  {
    if from <= DEV_CHAN_MAX_FM {
      assert t1[from] == t1[..DEV_CHAN_MAX_FM + 1][from] == t2[..DEV_CHAN_MAX_FM + 1][from] == t2[from];
      ScanFmIgnoresPsg(t1, t2, midiChan, from + 1);
    }
  }

  /** Only FM entries 0..DEV_CHAN_MAX_FM decide the lookup; PSG entries never do. */
  lemma FmChanIgnoresPsg(t1: seq<DeviceChannel>, t2: seq<DeviceChannel>, midiChan: u8)
    requires |t1| > DEV_CHAN_MAX_FM && |t2| > DEV_CHAN_MAX_FM
    requires t1[..DEV_CHAN_MAX_FM + 1] == t2[..DEV_CHAN_MAX_FM + 1]
    ensures FmChanForMidiChan(t1, midiChan) == FmChanForMidiChan(t2, midiChan)
  {
    ScanFmIgnoresPsg(t1, t2, midiChan, 0);
  }

  /** The MIDI channel shown for device channel `index`: one-based, computed
      in `u8`, so the byte 0xFF wraps round to 0. */
  function MidiChannelForUi(table: seq<DeviceChannel>, index: nat): (r: u8)
    requires index < |table|
    ensures (r as int + 0xFF) % 0x100 == table[index].midiChannel
    ensures r == 0 <==> table[index].midiChannel == 0xFF
  {
    (table[index].midiChannel + 1) % 0x100
  }

  /** The row of one-based MIDI channels that populateMappings fills in. */
  function UiMappings(table: seq<DeviceChannel>): (r: seq<u8>)
    requires |table| == DEV_CHANS
    ensures |r| == DEV_CHANS
  {
    MappingsUpTo(table, DEV_CHANS)
  }

  /** The first n entries of the row. */
  function MappingsUpTo(table: seq<DeviceChannel>, n: nat): (r: seq<u8>)
    requires n <= |table|
    ensures |r| == n
  {
    if n == 0 then [] else MappingsUpTo(table, n - 1) + [MidiChannelForUi(table, n - 1)]
  }

  /** Entry i of the row is device channel i's one-based MIDI channel. */
  lemma {:induction false} MappingsUpToIndex(table: seq<DeviceChannel>, n: nat, i: nat)
    requires i < n <= |table|
    ensures MappingsUpTo(table, n)[i] == MidiChannelForUi(table, i)
  {
    if i < n - 1 {
      MappingsUpToIndex(table, n - 1, i);
    }
  }

  /** Each entry of the row gives back the table's MIDI channel when one is
      subtracted again in `u8`. */
  lemma UiMappingsInvert(table: seq<DeviceChannel>)
    requires |table| == DEV_CHANS
    ensures forall i :: 0 <= i < DEV_CHANS ==> (UiMappings(table)[i] as int + 0xFF) % 0x100 == table[i].midiChannel
  {
    forall i | 0 <= i < DEV_CHANS
      ensures (UiMappings(table)[i] as int + 0xFF) % 0x100 == table[i].midiChannel
    {
      MappingsUpToIndex(table, DEV_CHANS, i);
    }
  }

  /** Two tables show the same mapping row exactly when they bind the same MIDI channels. */
  lemma UiMappingsSameIff(t1: seq<DeviceChannel>, t2: seq<DeviceChannel>)
    requires |t1| == DEV_CHANS && |t2| == DEV_CHANS
    ensures UiMappings(t1) == UiMappings(t2) <==>
      forall i :: 0 <= i < DEV_CHANS ==> t1[i].midiChannel == t2[i].midiChannel
  {
    var r1, r2 := UiMappings(t1), UiMappings(t2);
    UiMappingsInvert(t1);
    UiMappingsInvert(t2);
    if forall i :: 0 <= i < DEV_CHANS ==> t1[i].midiChannel == t2[i].midiChannel {
      forall i | 0 <= i < DEV_CHANS ensures r1[i] == r2[i] {
        MappingsUpToIndex(t1, DEV_CHANS, i);
        MappingsUpToIndex(t2, DEV_CHANS, i);
      }
    }
    if r1 == r2 {
      forall i | 0 <= i < DEV_CHANS ensures t1[i].midiChannel == t2[i].midiChannel {
        assert (r1[i] as int + 0xFF) % 0x100 == t1[i].midiChannel;
      }
    }
  }

  /** Panel text for the stereo setting: 0 none, 1 right, 2 left, anything else both. */
  function StereoText(stereo: u8): (r: string)
    ensures |r| == 2
    ensures stereo >= 3 ==> r == "LR"
  {
    match stereo
    case 0 => "  "
    case 1 => "R "
    case 2 => "L "
    case _ => "LR"
  }

  /** Panel text for the LFO enable flag: any non-zero value reads as on. */
  function LfoEnableText(lfoEnable: u8): (r: string)
    ensures |r| == 3 && (r == "Off" <==> lfoEnable == 0)
  {
    if lfoEnable == 0 then "Off" else "On "
  }

  /** Panel text for the amplitude-modulation sensitivity; values above 3 give "ERROR". */
  function AmsText(ams: u8): (r: string)
    ensures ams > 3 <==> r == "ERROR"
    ensures ams <= 3 ==> |r| == 6
  {
    if ams > 3 then "ERROR"
    else ["0dB   ", "1.4dB ", "5.9dB ", "11.8dB"][ams]
  }

  /** Distinct in-range settings have distinct texts, so the panel text determines the setting. */
  lemma TextLookupsInjective(a: u8, b: u8)
    ensures a <= 3 && b <= 3 && AmsText(a) == AmsText(b) ==> a == b
    ensures a <= 3 && b <= 3 && StereoText(a) == StereoText(b) ==> a == b
    ensures (LfoEnableText(a) == LfoEnableText(b)) <==> ((a == 0) == (b == 0))
  {
    if a <= 3 && b <= 3 && a != b {
      assert AmsText(a)[0..2] != AmsText(b)[0..2] || AmsText(a)[2..] != AmsText(b)[2..];
      assert StereoText(a)[0] != StereoText(b)[0] || StereoText(a)[1] != StereoText(b)[1];
    }
    if (a == 0) != (b == 0) {
      assert LfoEnableText(a)[1] != LfoEnableText(b)[1];
    }
  }

  /** The key-on activity mask `synth_busy() | (psg_busy() << 6)`, computed
      in C `int` and stored in a `u16`: FM busy bits first, PSG busy bits from bit 6. */
  function KeyBusyMask(synthBusy: u8, psgBusy: u8): u16
  {
    ((synthBusy as bv16) | ((psgBusy as bv16) << 6)) as int
  }
}
