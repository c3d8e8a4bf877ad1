# Mega Drive MIDI Interface — display module decisions

This project models the decision layer of the display module `src/ui.c` in
the Mega Drive MIDI Interface, and proves properties of that model. The
module decides what to draw, when and with which values. It never changes
the synth or the MIDI state. `ui_update` runs once per frame and splits its
work across four frame dividers:

- every 5 updates: the channel mappings, the beat, the transport mode, the
  serial buffer and the log;
- every 13 updates: one load sample;
- every 47 updates: the load report and the dynamic-mode status;
- every 11 updates: the unknown-message check.

Every update also does two things:

- it refreshes the key-activity sprites when the busy mask changes;
- it refreshes the FM parameter panel when that panel is shown and dirty.
  Each panel value is redrawn only when it differs from the cached copy, or
  when a full refresh is forced.

The model has four layers:

- `UiTypes`: the C integer widths `u8`/`u16`, the module's constants, the
  values the collaborators report, and an `Event` datatype. Each `Event`
  stands for one drawing call, or one call into another module.
- `UiLookups` and `UiScheduler`: the pure computations. These are the load
  percentage, the MIDI-to-FM channel lookup, the mapping row and the text
  lookups, plus the frame-divider arithmetic and the load window.
- `UiPanel`: what one panel refresh prints, as functions of the current
  parameters, the cache and the force flag. It holds the lemmas on when
  each item is redrawn.
- `Ui` and `UiState`: the imperative part. In `UiState.Display`, the
  module's static variables are the fields of a class; the statics of the
  parameter panel (its selection, the FM channel shown, the dirty and force
  flags and the cache) are the fields of a second class,
  `UiState.ParameterPanel`, which the display holds. Each C function that
  reads or writes those statics is a method of `Display`; the pure ones
  (`loadPercent`, `getFmChanForMidiChan`, the text lookups) are functions in
  `UiLookups`. Collaborators' answers arrive as arguments. What is drawn is
  appended to `trace`. The panel checks in `Ui` are methods over values,
  proved equal to the `UiPanel` functions.

The statics that `ui_update` may change are grouped by the step that
changes them, in the values `PanelLatches`, `ActivityLatches`, `LoadLatches`
and `ErrorLatches`. One update's step on each is given by the functions
`PanelAfter`, `ActivityAfter`, `LoadAfter` and `ErrorAfter`.

Two quirks of the source are modelled as written and stated as properties:

- The second `algorithm` check, for the diagram, compares against the value
  the first check cached a moment earlier. So the diagram is drawn only on a
  forced refresh.
- The repeated `releaseRate` check has the same shape: its second copy
  prints only on a forced refresh. Because `line++` advances only for values
  actually printed, operator values do not stay on fixed rows.

The load report divides the sum of at most four samples by 3. It can
therefore reach 133%, and the model proves that bound. It also proves that
the 16-bit load sum never wraps round.

## Model

| member | source | states |
|---|---|---|
| UiLookups.LoadPercent | src/ui.c:512-520 | the load is at most 100%; it is 0 when nothing was counted or when nothing was busy, and 100 when nothing was idle |
| UiLookups.LoadPercentRoundsDown | src/ui.c:512-520 | the percentage is the busy share rounded down: `r*(idle+busy) <= 100*busy < (r+1)*(idle+busy)` |
| UiLookups.ScanFm | src/ui.c:209-215 | scanning from entry `from`: when some FM entry from `from` up to `DEV_CHAN_MAX_FM` has the MIDI channel, the result is the number of the first such entry; otherwise it is the sentinel 0xFF |
| UiLookups.FmChanForMidiChan | src/ui.c:206-216 | the FM channel serving a MIDI channel is the `number` of the first of FM entries 0..5 bound to it; when none is bound it is the sentinel `UNKNOWN_FM_CHANNEL` |
| UiLookups.FmChanUnknownIffUnbound | src/ui.c:206-216 | when no FM entry is numbered 0xFF, the lookup gives the sentinel exactly when no FM entry is bound to the MIDI channel |
| UiLookups.FmChanIgnoresPsg | src/ui.c:209 | two tables that agree on entries 0..5 give the same lookup result, so PSG entries never decide it |
| UiLookups.MidiChannelForUi | src/ui.c:562-565 | the shown channel is the table's channel plus one in `u8`: subtracting one again gives the table value back, and the byte 0xFF shows as 0 |
| UiLookups.UiMappings | src/ui.c:582-588 | the row that `populateMappings` fills has one entry per device channel |
| UiLookups.MappingsUpToIndex | src/ui.c:585-587 | entry i of the row is the one-based MIDI channel of device channel i |
| UiLookups.UiMappingsInvert | src/ui.c:582-588 | every row entry gives back its table entry's MIDI channel |
| UiLookups.UiMappingsSameIff | src/ui.c:567-588 | two tables give the same row exactly when they bind the same MIDI channels, so the row is redrawn exactly when a binding changed |
| UiLookups.StereoText | src/ui.c:218-230 | the stereo text is two characters wide; every value of 3 or above reads "LR" |
| UiLookups.LfoEnableText | src/ui.c:232-240 | the text is three characters wide and reads "Off" exactly when the value is 0 |
| UiLookups.AmsText | src/ui.c:249-256 | values above 3 read "ERROR", and only those; in-range texts are six characters wide |
| UiLookups.TextLookupsInjective | src/ui.c:218-256 | distinct in-range AMS and stereo settings have distinct texts; two LFO-enable texts are equal exactly when both values are zero or both are non-zero |
| UiScheduler.Advance | src/ui.c:466-467 | a divider stays below its period and returns to 0 exactly on the update its group fires |
| UiScheduler.AdvanceN | src/ui.c:465-467 | a divider started at 0 is below its period after any number of updates |
| UiScheduler.AdvanceNIsMod | src/ui.c:465-467 | after n effective updates the divider holds n mod period |
| UiScheduler.FiresEveryPeriod | src/ui.c:466 | the n-th effective update fires the group exactly when n is a multiple of the period |
| UiScheduler.ReportedLoad | src/ui.c:651-652 | the reported load is the sum divided by 47/13 = 3, rounded down |
| UiScheduler.SamplesStep | src/ui.c:475-483 | each update lengthens the report window by one, and adds one sample exactly when the 13-frame divider fires |
| UiScheduler.SamplesBound | src/ui.c:475-486 | a window of at most 47 updates holds at most four samples |
| UiScheduler.FullWindowSamples | src/ui.c:475-486 | a full window holds 3 or 4 samples, and 4 exactly when the last sample came at most 7 updates before the report, so the divisor 3 does not always match the sample count |
| UiScheduler.ReportedLoadBound | src/ui.c:648-652 | with every sample at most 100, the reported load is at most 133%, and a fully busy four-sample window reports exactly 133 |
| UiPanel.EmitAppend | src/ui.c:341-394 | two runs of checks print one after the other; the second starts on the row after the first run's last printed value |
| UiPanel.EmitRows | src/ui.c:336-396 | the k-th printed value goes to row 4+k, whichever field it comes from |
| UiPanel.EmitDrawsField | src/ui.c:340-396 | a field is printed exactly when one of its checks redraws |
| UiPanel.EmitOperator | src/ui.c:341-394 | every value printed for an operator is tagged with that operator |
| UiPanel.ChecksShape | src/ui.c:340-396 | each check prints its field's current value; all except the repeated release-rate check fire when the field changed or a refresh is forced; the repeated check fires only when forced |
| UiPanel.OperatorRedrawIffChanged | src/ui.c:340-396 | an operator field other than the release rate is printed exactly when it changed or a refresh is forced |
| UiPanel.ReleaseRateRedrawIffChanged | src/ui.c:383-391 | the release rate is printed exactly when it changed or a refresh is forced |
| UiPanel.ForcedOperatorRows | src/ui.c:335-396 | a forced refresh prints all eleven values on rows 4..14, the release rate twice (rows 12 and 13) |
| UiPanel.AllRedrawn | src/ui.c:340-396 | when every check redraws, the printed checks are all of them |
| UiPanel.NoneRedrawn | src/ui.c:340-396 | when no check redraws, nothing is printed |
| UiPanel.OperatorUnchangedSilent | src/ui.c:340-396 | an operator equal to its cache prints nothing unless forced |
| UiPanel.OperatorsRedrawIffChanged | src/ui.c:335-397 | over the operator loop, field f of operator op is printed exactly when it changed or a refresh is forced |
| UiPanel.OperatorsOnlyBelow | src/ui.c:335-397 | the first n passes of the loop print only operator values of operators below n |
| UiPanel.OperatorsUnchangedSilent | src/ui.c:335-397 | an unchanged set of operators prints nothing unless forced |
| UiPanel.ItemIndex | src/ui.c:280-333 | every channel-level item has a position in the checking order |
| UiPanel.ItemEvent | src/ui.c:280-333 | the event an item's check draws is the redraw of that item |
| UiPanel.PanelUnchangedSilent | src/ui.c:271-400 | with the cache matching and no forced refresh, a panel refresh prints nothing, so a second refresh after a first is silent |
| UiPanel.LatchesUnchangedSilent | src/ui.c:280-333 | unchanged channel-level values print nothing unless forced |
| UiPanel.ChannelItemShown | src/ui.c:280-333 | an item whose check fires is drawn with its current value |
| UiPanel.LatchesShown | src/ui.c:280-333 | the same, for the first n channel-level checks |
| UiPanel.ChannelEvents | src/ui.c:280-333 | every channel-level event draws some item's current value, and that item's check fired |
| UiPanel.LatchesEvent | src/ui.c:280-333 | the same, for the first n channel-level checks |
| UiPanel.ChannelNoOperatorValues | src/ui.c:280-333 | the channel-level checks print no operator value |
| UiPanel.OperatorsNoItems | src/ui.c:335-397 | the operator loop prints no channel-level item |
| UiPanel.ChannelRedrawIffChanged | src/ui.c:280-333 | each channel-level item is redrawn exactly when it changed or a refresh is forced, always with the current value; the algorithm diagram is shown exactly when forced |
| UiPanel.PanelOperatorRedrawIffChanged | src/ui.c:271-400 | in a whole panel refresh, field f of operator op is printed exactly when it changed or a refresh is forced |
| Ui.FmChanInRange | src/ui.c:442-446 | with a well-formed table, a looked-up channel other than the sentinel is one of the six FM channels |
| Ui.CommModeText | src/ui.c:625 | every transport-mode name is seven characters wide |
| Ui.CommModeEvents | src/ui.c:620-646 | while no transport is established, the mode name is the last thing printed |
| Ui.CommModeBaudRateIffSerial | src/ui.c:613-646 | the baud rate is printed exactly for a serial link |
| Ui.LogRow | src/ui.c:418-422 | the row a message is drawn on is below 3, and is the log index itself while the area is not full |
| Ui.LogLineAfter | src/ui.c:409-434 | the log index never exceeds 3 |
| Ui.LogRowsCycle | src/ui.c:409-434 | message n goes to row n mod 3, and the area is cleared before it exactly when n is a non-zero multiple of 3 |
| Ui.PopulateMappings | src/ui.c:582-588 | the loop fills the array with exactly the mapping row |
| Ui.CheckOperatorField | src/ui.c:340-394 | one operator check prints on the next free row and caches the value |
| Ui.RefreshOperator | src/ui.c:336-396 | one pass of the operator loop prints exactly the operator's eleven checks and leaves the operator in the cache |
| Ui.RefreshOperatorHead | src/ui.c:340-364 | the first five operator checks print their part of the checks and cache their fields |
| Ui.RefreshOperatorTail | src/ui.c:366-396 | the last six checks continue on the following rows; the second release-rate check compares against the value just cached |
| Ui.CheckItem | src/ui.c:280-333 | one channel-level check prints the item when it differs from the cache or is forced, and caches the value |
| Ui.RefreshChannel | src/ui.c:280-333 | the channel-level checks print exactly the channel refresh, and the cache then holds the current channel-level values |
| Ui.RefreshChannelHead | src/ui.c:280-307 | the first five channel-level checks |
| Ui.RefreshChannelTail | src/ui.c:309-333 | the last five channel-level checks, the diagram compared against the algorithm just cached |
| Ui.RefreshOperators | src/ui.c:335-397 | the operator loop prints exactly the refresh of operators 0..3, and the cache then holds all four operators |
| UiState.ParameterPanel.constructor | src/ui.c:265-269 | the panel statics start with an all-zero cache and no forced refresh, and (as declared at src/ui.c:16 and 79-82) hidden, on MIDI and FM channel 0, and clean |
| UiState.Display.constructor | src/ui.c:74-82 | the statics start at their initial values: counters 0, no transport, `lastSixteenth` 0xFFFF, zeroed cache, and a fresh panel object |
| UiState.Display.Init | src/ui.c:116-149 | `ui_init` draws the furniture, then load, beat, transport mode and mapping row, then the dynamic-mode status, and leaves the state valid |
| UiState.Display.PrintStatus | src/ui.c:126-129 | load, beat, mode and mapping printers, in that order |
| UiState.Display.SynthParameterUpdated | src/ui.c:109-114 | the panel becomes dirty when its own FM channel or the LFO changed, and is never cleaned here; the state invariant is kept |
| UiState.Display.UpdateKeyOnOff | src/ui.c:552-560 | the activity sprites are redrawn exactly when the busy mask changed, and the mask is remembered |
| UiState.Display.UpdateFmValues | src/ui.c:271-400 | a panel refresh draws exactly `PanelRefresh` against the old cache and force flag, then caches the current values and clears the force flag |
| UiState.Display.UpdateFmValuesIfChanSelected | src/ui.c:436-455 | nothing happens while the panel is hidden or no FM channel serves it; otherwise a new FM channel marks the panel dirty, and a dirty panel is refreshed and cleaned; the step on the panel statics is `PanelAfter` of the old ones and the selection |
| UiState.Display.SetMidiChannelParametersVisibility | src/ui.c:497-510 | selects the channel, draws the headings (forcing a refresh) or clears the panel, and marks the panel dirty; the state invariant is kept |
| UiState.Display.PrintMappingsIfDirty | src/ui.c:567-580 | the row is drawn exactly when it differs from the one remembered, and is remembered |
| UiState.Display.PrintMappings | src/ui.c:402-407 | the mapping row is drawn exactly when it differs from what is on screen |
| UiState.Display.PrintBeat | src/ui.c:598-611 | the position is drawn exactly when the sixteenth changed |
| UiState.Display.PrintCommMode | src/ui.c:620-646 | once a transport is established nothing is drawn; before that the mode is drawn, and Everdrive or serial establishes it |
| UiState.Display.PrintCommBuffer | src/ui.c:542-550 | the free buffer space is drawn exactly on a serial link |
| UiState.Display.PrintLog | src/ui.c:409-434 | a dequeued message goes on the next row, after the area is cleared when three rows are used; no message draws nothing |
| UiState.Display.PrintLoad | src/ui.c:648-659 | resets the traffic counters, draws the averaged load (warning palette above 70%) and zeroes the sum |
| UiState.Display.PrintDynamicModeIfNeeded | src/ui.c:668-676 | the mode is drawn exactly when it changed, and is remembered |
| UiState.Display.CheckLastError | src/ui.c:678-695 | a new non-zero unknown status and a new non-zero unknown controller change are each logged once and remembered |
| UiState.Display.Update | src/ui.c:457-495 | a second call in the same frame changes nothing at all; otherwise one effective update (`Ticked`): the frame is marked handled, the busy mask remembered, the panel selection kept, the panel statics become `PanelAfter` of their old values and the selection, and the activity, load and error statics become `ActivityAfter`, `LoadAfter` and `ErrorAfter` of their old values and the inputs; the state stays valid and the trace only grows |
| UiState.Display.Tick | src/ui.c:462-494 | one effective update as stated for `Update`: key activity and panel, then the three divider groups, then the frame marked handled |
| UiState.Display.PeriodicGroups | src/ui.c:465-492 | the three divider groups in order: the statics of each become its `…After` step and stay within their bounds |
| UiState.Display.ActivityLatchesStep | src/ui.c:465-473 | the activity group's step on its statics is `ActivityAfter`, and the log index and transport statics stay within their bounds |
| UiState.Display.LoadLatchesStep | src/ui.c:475-486 | the load groups' step on their statics is `LoadAfter`, and the load bound is kept |
| UiState.Display.ErrorLatchesStep | src/ui.c:488-492 | the error group's step on its statics is `ErrorAfter` |
| UiState.Display.UpdateKeysAndPanel | src/ui.c:462-463 | key activity, then the panel: the busy mask is remembered, the selection kept, and the panel statics become `PanelAfter` of the old ones; the cache stays well-formed |
| UiState.Display.ActivityGroup | src/ui.c:465-473 | the activity statics become `ActivityAfter` of the old ones; on every fifth update it draws exactly `ActivityEvents` of the old statics, otherwise nothing |
| UiState.Display.PrintMidiStatus | src/ui.c:468-469 | draws the mapping row and the beat, each when it differs from the one remembered, then remembers both |
| UiState.Display.PrintCommStatus | src/ui.c:470-471 | draws the transport mode until one is established and the free buffer on a serial link; the transport statics are set as `printCommMode` sets them, keeping "serial implies established" |
| UiState.Display.LoadMetering | src/ui.c:475-486 | the load statics become `LoadAfter` of the old ones and keep their bound; on every 47th update it draws `LoadEvents` of the sum including this update's sample, at most 133%, then the dynamic mode when it changed; otherwise nothing |
| UiState.Display.LoadSample | src/ui.c:475-479 | the sample is added to the 16-bit sum without wrap-around, keeping at most 100 per sample in the window |
| UiState.Display.LoadReport | src/ui.c:481-486 | every 47th update: draws the counter reset and the load, at most 133%, zeroes the sum, and draws and remembers the dynamic mode when it changed; the other updates change nothing but the divider |
| UiState.Display.ErrorGroup | src/ui.c:488-492 | the error statics become `ErrorAfter` of the old ones; on every eleventh update it logs exactly the new non-zero unknown status and controller change, otherwise nothing |
| UiState.LoadEvents | src/ui.c:648-659 | `printLoad` resets the counters and then draws the load, which is at most sum/3 and in the warning palette exactly above 70% |
| UiState.ActivityRedrawsOnlyNews | src/ui.c:465-473 | when the activity group fires again with the same inputs it redraws neither the mapping row nor the beat: only the transport while none is established, the buffer and the log |
| UiState.CommModeLatched | src/ui.c:620-646 | once a transport is established the transport statics stay as they are, whatever the inputs |
| UiState.ActivityAfterBounded | src/ui.c:465-473 | every update keeps the activity divider below 5, the log index at most 3, and a serial link counted as established |
| UiState.LoadAfterBounded | src/ui.c:475-486 | every update keeps the load bound; between reports the 16-bit sum gains the sample without wrap-around; a report shows at most 133% |
| UiState.PanelAfterSettles | src/ui.c:436-455 | a second update with the same selection and synth values leaves the panel statics as the first left them: a panel left clean on the looked-up FM channel is not due for another refresh |
| UiState.ShownPanelRefreshed | src/ui.c:436-455 | while the panel is dirty (as `ui_setMidiChannelParametersVisibility` leaves it, src/ui.c:509) and an FM channel serves the selected MIDI channel, the next update selects that FM channel, caches its current values and clears both flags, whatever was cached |
| UiState.CheckLastErrorOnce | src/ui.c:678-695 | a second check with the same unknown status and controller change logs nothing |

## Left out

- Rendering is not modelled: text positions, palettes, `sprintf` formatting, VDP calls and sprite handling. Each drawing call is one abstract `Event` that carries the values drawn.
- `lfoFreqText` and `fmsText` are not modelled; the LFO frequency and FMS events carry the raw value. Both index an eight-entry table without a range check.
- The `ui_vsync` interrupt is not modelled; the frame counter it maintains is an input of `Update`, so no concurrency is modelled.
- Collaborators are not modelled: synth, PSG, MIDI engine, transport, buffer and log queue. What they report in one update is an argument (`Ui.Inputs`), and `comm_resetCounts` and `log_warn` are recorded as events.
- Callback registration in `ui_init` is not modelled; `SynthParameterUpdated` is the callback itself.
- `printChannelParameterHeadings` and `printChanActivity` are only drawing; each is one event (`DrawParameterHeadings`, `ShowKeyActivity`).
- `hideAllAlgorithms` has no event of its own: it is part of `ClearParameterPanel` and of `ShowAlgorithmDiagram`, which stands for `updateAlgorithmDiagram`.
- `initAlgorithmSprites` and the sprite set-up at the end of `ui_init` (src/ui.c:134-148) have no event: they create and place sprites and draw no value.
- Ui.WellFormedTable: the model assumes every FM entry of the mapping table is numbered below 6. The source does not check this. An FM entry numbered 0xFF that matches would read as "not found" at src/ui.c:443, and a number of 6 or more would index `synth_channelParameters` out of range.
- UiLookups.KeyBusyMask has no contract: it is the C expression `synth_busy() | (psg_busy() << 6)` on 16 bits, used only as the value `UpdateKeyOnOff` compares and remembers.
- `DEV_CHANS`, `MAX_FM_CHANS`, `MAX_PSG_CHANS`, `DEV_CHAN_MAX_FM` and `MAX_FM_OPERATORS` come from headers that are not part of this model. Their values (10, 6, 4, 5, 4) are taken from their use in `src/ui.c`: the ten-column channel header, the ten-value mapping format and the FM-only lookup loop.
- `memcmp` and `memcpy` in `printMappingsIfDirty` are modelled as a sequence comparison and an element-by-element copy loop.
- Ui.RefreshChannel, Ui.RefreshOperator: the panel checks are helper methods over values returning the new cache entry, which `UpdateFmValues` then stores. The C code writes the static cache field by field in place; the resulting state is the same.
- UiState.Display.Tick, UiState.Display.Update: these state every static after one update, of the display and of the panel, but of the trace only that it grows. The events of one update are stated piece by piece: by `UpdateKeyOnOff` and `UpdateFmValuesIfChanSelected`, and by the group methods `ActivityGroup`, `LoadMetering` and `ErrorGroup`.
- UiState.Display.PeriodicGroups, UiState.Display.ActivityLatchesStep, UiState.Display.LoadLatchesStep, UiState.Display.ErrorLatchesStep: these state the step on the statics and that the trace grows. The events are stated by `ActivityGroup`, `LoadMetering` and `ErrorGroup`, which they call.
- UiState.Display.UpdateKeysAndPanel: states the statics it leaves and that the trace grows, not what it draws. The exact drawing is in the contracts of `UpdateKeyOnOff` and `UpdateFmValuesIfChanSelected`.
- UiState.LoadEvents: states that the drawn load is at most sum/3. The exact value is `UiScheduler.ReportedLoad`, which states the rounding.
- UiState.Display.Init: `printDynamicModeStatus` is drawn unconditionally, as in the source; the dynamic-mode cache is not touched.
