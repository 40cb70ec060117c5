# Railway IT/OT platform: a Dafny model of the SCADA and train-control HMIs

The railway cyber range has two operator consoles.

The SCADA HMI (`src/scadaEmuUI`) draws three track lines: west-east, circle and north-south.
- Each line has a row of train-detection sensors and a set of signals.
- The map manager (`MapMgr`) holds one `AgentSensors` per line and a list of `AgentSignal` objects per line.
- Each signal is triggered by the positions of sensors on another line.
- The frame's periodic step reads the junction PLC `PLC-00` and slices its holding registers and coils by a per-line range table. It pushes each line's slice into that line's sensors and signals.
- Six `PanelPLC` panels show each PLC's inputs and outputs under zero-padded labels such as `wes07` or `Swe03`.
- Each output has an ON/OFF button named `<plc>:<i>`. Its click handler `relayOn` toggles the output, but the binding that would call it is commented out (src/scadaEmuUI/hmiPanel.py:83), so no click reaches it.

The train-control HMI (`src/trainCtrlUI`) shows the ten trains.
- The trains are 4 on west-east, 3 on north-south and 3 on circle. Each train has one speed register and one power coil on the train PLC.
- At start-up the HMI powers every train on with ten coil writes.
- Its periodic step hands each line its slice of the train registers and coils.
- It also copies each line's train information into that line's train panels. Each line has four slots; the slots beyond the line's train count are placeholders.

The false command injector (`attack/falseCmdinjector.py`) sends three coil writes to the train PLC: clear coil 10, stop `train-we1` (coil 1) and run `train-we0` (coil 0).

## Modules and form

The project has one module per file:

| module | file | what it holds |
|---|---|---|
| `Wrappers` | wrappers.dfy | Option and Result |
| `Tracks` | tracks.dfy | the three lines and their dictionary keys |
| `Text` | text.dfy | `str`, `int`, `split` and `zfill` on the names the HMI builds |
| `Ranges` | ranges.dfy | configuration ranges, tilings, Python's clamping slice, overlaying a list onto a fixed-length list |
| `DigitalLabels` | labels.dfy | panel labels |
| `HmiMgr` | hmi_mgr.dfy | classes `AgentSensors`, `AgentSignal` and `MapMgr` |
| `HmiPanel` | hmi_panel.dfy | class `PanelPLC`, whose two GPIO lists are arrays |
| `HmiEmuRun` | hmi_emu_run.dfy | the SCADA frame `UIFrame` |
| `TrainCtrlRun` | train_ctrl_run.dfy | the train frame `TrainFrame` |
| `CoilWrites` | coil_writes.dfy | the coil write log and the injector replay |

The form follows the source:
- Objects whose fields the source updates are classes with `modifies` frames.
- Loops are methods with invariants, each proved against a specification function.
- The configuration tables and the name arithmetic are values and functions.

Time is an integer parameter. The data managers' getters are values passed in. Their writes are an ordered log kept in a field.

## Model

| member | source | states |
|---|---|---|
| Tracks.LineOf | src/scadaEmuUI/hmiMgr.py:189-195 | a track id names a line exactly when it is one of the three dictionary keys `weline`, `ccline`, `nsline`, and then it names that line |
| Text.IntToString | src/scadaEmuUI/hmiPanel.py:113 | `str(state)`: the decimal digits of a non-negative number, and a leading minus sign otherwise |
| Text.ParseNat | src/scadaEmuUI/hmiPanel.py:98 | `int(s)` restricted to ASCII digit strings: the model succeeds exactly on non-empty strings of ASCII decimal digits |
| Text.ParseNatToString | src/scadaEmuUI/hmiPanel.py:103 | reading back `str(n)` gives `n` |
| Text.AfterLast | src/scadaEmuUI/hmiPanel.py:98 | `split(':')[-1]` is the longest suffix with no separator in it, and a separator precedes it when it is shorter than the string |
| Text.BeforeFirst | src/scadaEmuUI/hmiPanel.py:97 | `split('[')[0]` is the longest prefix with no separator in it, and a separator follows it when it is shorter than the string |
| Text.AfterLastOfJoin | src/scadaEmuUI/hmiPanel.py:82-98 | splitting `p + ':' + t` at its last colon gives back `t` when `t` has no colon |
| Text.BeforeFirstNone | src/scadaEmuUI/hmiPanel.py:97 | a name without `[` is its own first field |
| Text.ZFill | src/scadaEmuUI/hmiEmuRun.py:100 | `zfill(w)` pads with zeros on the left up to width `w` and keeps the string as its suffix |
| Text.TwoDigits | src/scadaEmuUI/hmiEmuRun.py:98-106 | below 100, `str(i).zfill(2)` is exactly the tens digit and the units digit |
| Text.ParseTwoDigits | src/scadaEmuUI/hmiEmuRun.py:98-106 | a two-digit padded suffix reads back as its number |
| Ranges.PySlice | src/scadaEmuUI/hmiEmuRun.py:300-305 | `v[a:b]` clamps both bounds to the length, is empty when `a >= b`, and holds `v[a + i]` at position `i` |
| Ranges.SliceOfRange | src/trainCtrlUI/trainCtrlRun.py:335-338 | on a long enough vector a configured range's slice is exactly as wide as the range |
| Ranges.Overlay | src/scadaEmuUI/hmiPanel.py:118-137 | copying a list onto a fixed-length list keeps the length, takes the new value below `min(len)` and the old value elsewhere |
| Ranges.OverlaySelf | src/scadaEmuUI/hmiPanel.py:119 | copying a list onto an equal list changes nothing, so the early return for an equal list agrees with the copy loop |
| Ranges.OverlayTwice | src/scadaEmuUI/hmiPanel.py:118-137 | repeating the same update leaves the panel as the first update left it |
| Ranges.OverlayCovers | src/scadaEmuUI/hmiPanel.py:120-123 | a list at least as long as the panel's replaces every entry |
| DigitalLabels.Labels | src/scadaEmuUI/hmiEmuRun.py:98-101 | one `for i in range(from, to)` label loop yields `to - from` labels, the `j`-th named with prefix and index `from + j` |
| DigitalLabels.LabelsSnoc | src/scadaEmuUI/hmiEmuRun.py:99-101 | one more loop step appends one more label |
| DigitalLabels.AppendLabels | src/scadaEmuUI/hmiEmuRun.py:99-101 | the append loop leaves the old list followed by the labels of the range |
| DigitalLabels.ItemNameDigits | src/scadaEmuUI/hmiEmuRun.py:100 | an item name below 100 is the prefix and two digits, and its suffix reads back as the index |
| DigitalLabels.ItemNameInjective | src/scadaEmuUI/hmiEmuRun.py:100 | under one prefix, distinct indices below 100 give distinct names |
| DigitalLabels.LabelsExclude | src/scadaEmuUI/hmiEmuRun.py:98-101 | a label loop shows no name for an index outside its range |
| DigitalLabels.ItemNamePrefix | src/scadaEmuUI/hmiEmuRun.py:109-118 | names under two different prefixes of one length never coincide |
| HmiMgr.ZeroStates | src/scadaEmuUI/hmiMgr.py:28 | `[0]*n` is `n` zeros |
| HmiMgr.AgentSensors.constructor | src/scadaEmuUI/hmiMgr.py:23-28 | the count and positions come from the given list, or are empty without one, and every state is 0 |
| HmiMgr.AgentSensors.AddOneSensor | src/scadaEmuUI/hmiMgr.py:30-33 | appends the position and a 0 state and increments the count, keeping count and both lists in step |
| HmiMgr.AgentSensors.UpdateSensorState | src/scadaEmuUI/hmiMgr.py:35-37 | an index in [0, count) sets that state alone; a negative index in [-count, 0) sets state `count + idx`, as a list subscript does; an index below `-count` raises IndexError; an index at or above the count changes nothing |
| HmiMgr.AgentSensors.UpdateSensorsState | src/scadaEmuUI/hmiMgr.py:39-42 | a list of exactly the sensor count replaces the states; any other length changes nothing |
| HmiMgr.AgentSensors.GetSensorsCount | src/scadaEmuUI/hmiMgr.py:47-48 | the count equals the number of positions and of states |
| HmiMgr.AgentSensors.GetSensorPos | src/scadaEmuUI/hmiMgr.py:50-51 | returns one position per sensor |
| HmiMgr.AgentSensors.GetSensorsState | src/scadaEmuUI/hmiMgr.py:53-54 | returns one state per sensor |
| HmiMgr.AgentSignal.constructor | src/scadaEmuUI/hmiMgr.py:60-66 | a new signal is off with no trigger positions |
| HmiMgr.AgentSignal.AddTGonPos | src/scadaEmuUI/hmiMgr.py:68-69 | appends one trigger-on position; the off list and the state are kept |
| HmiMgr.AgentSignal.AddTFoffPos | src/scadaEmuUI/hmiMgr.py:71-72 | appends one trigger-off position; the on list and the state are kept |
| HmiMgr.AgentSignal.SetState | src/scadaEmuUI/hmiMgr.py:89-90 | sets the state and keeps both trigger lists |
| HmiMgr.ThreeLinesDistinct | src/scadaEmuUI/hmiMgr.py:138-186 | three per-line signal lists, each without repeats and pairwise disjoint, make a map in which no signal object appears twice |
| HmiMgr.PushSensors | src/scadaEmuUI/hmiMgr.py:197-198 | `setSensors` keeps the sensor count and takes the new list exactly when its length matches, else keeps the old states |
| HmiMgr.PushSignals | src/scadaEmuUI/hmiMgr.py:200-203 | `setSingals` with a list no longer than the signals sets signal `i` to entry `i` for each entry and keeps the rest; a longer list changes nothing |
| HmiMgr.StatesOf | src/scadaEmuUI/hmiMgr.py:77-78 | the states of a line's signals, one per signal, in order |
| HmiMgr.MapMgr.constructor | src/scadaEmuUI/hmiMgr.py:96-103 | all three lines get their sensors, at the table positions, every state 0; every line gets its signals built from its table, each off, with trigger positions resolved on the trigger line's sensors; all objects are fresh and distinct |
| HmiMgr.MapMgr.BuildLine | src/scadaEmuUI/hmiMgr.py:107-123 | one line's sensors are built by appending its positions one by one: id, positions in order, all states 0 |
| HmiMgr.MapMgr.InitSensors | src/scadaEmuUI/hmiMgr.py:105-123 | `_initSensors` fills the sensor map with the three lines as the position table gives them |
| HmiMgr.MapMgr.BuildSignal | src/scadaEmuUI/hmiMgr.py:141-146 | a new signal has the table's id and position, is off, and its trigger-on and trigger-off lists are the trigger line's sensor positions at the table's indices, in order |
| HmiMgr.MapMgr.BuildSignals | src/scadaEmuUI/hmiMgr.py:140-147 | one line's loop builds one distinct, fresh signal per table entry, in table order |
| HmiMgr.MapMgr.BuildAllSignals | src/scadaEmuUI/hmiMgr.py:125-186 | the three loops build every line's signals from its table, and no signal object is shared |
| HmiMgr.MapMgr.InitSignals | src/scadaEmuUI/hmiMgr.py:125-186 | `_initSignals` gives each line the signals its table describes and leaves the sensors alone |
| HmiMgr.MapMgr.GetSensors | src/scadaEmuUI/hmiMgr.py:189-191 | a known line key returns that line's sensors, anything else returns the whole map |
| HmiMgr.MapMgr.GetSignals | src/scadaEmuUI/hmiMgr.py:193-195 | a known line key returns that line's signals, anything else returns the whole map |
| HmiMgr.MapMgr.SetSensors | src/scadaEmuUI/hmiMgr.py:197-198 | only the named line's sensor states change, as `PushSensors` says; positions and all signals are kept |
| HmiMgr.MapMgr.PushInto | src/scadaEmuUI/hmiMgr.py:201-203 | the `setState` loop over one line's signals gives each signal the state `PushSignals` prescribes and keeps the trigger lists |
| HmiMgr.MapMgr.SetSingals | src/scadaEmuUI/hmiMgr.py:200-203 | only the named line's signal states change, as `PushSignals` says; other lines, trigger lists and sensors are kept |
| HmiMgr.SensorLayout | src/scadaEmuUI/hmiMgr.py:105-123 | the west-east, circle and north-south lines have 17, 14 and 8 sensors on one row each (y = 100, 260, 420), with x strictly increasing |
| HmiMgr.SignalTableLayout | src/scadaEmuUI/hmiMgr.py:125-176 | every signal has an id unique on its line, a position on its line's row, and as many trigger-on as trigger-off indices, each off index one past its on index |
| HmiMgr.SignalTablesResolvable | src/scadaEmuUI/hmiMgr.py:127-186 | the tables hold 8, 7 and 4 signals; each is triggered by another line, and every trigger index is below that line's sensor count |
| HmiPanel.ConnectionKey | src/scadaEmuUI/hmiPanel.py:110-113 | `str(state)` is a key of the connection dictionary exactly for 0 and 1 |
| HmiPanel.ConnectionLabel | src/scadaEmuUI/hmiPanel.py:110-113 | the lookup succeeds exactly for 0 and 1, giving `Unconnected` and `Connected` |
| HmiPanel.ToggleAt | src/scadaEmuUI/hmiPanel.py:100 | the toggle replaces entry `i` by `1 - s[i]` and keeps every other entry |
| HmiPanel.ToggleTwice | src/scadaEmuUI/hmiPanel.py:100 | toggling twice restores the list, and toggling keeps a 0/1 list 0/1 |
| HmiPanel.ButtonName | src/scadaEmuUI/hmiPanel.py:82 | a button name starts with its panel's name |
| HmiPanel.PlcIndexOf | src/scadaEmuUI/hmiPanel.py:97 | the read succeeds exactly when the part before the first `[` is non-empty and ends in a digit, and then gives that last digit |
| HmiPanel.OutIndexOf | src/scadaEmuUI/hmiPanel.py:98 | the output index parses exactly when the text after the last colon is a decimal number |
| HmiPanel.RelayTarget | src/scadaEmuUI/hmiPanel.py:97-103 | the PLC index fails first, then the output index, then an output index of 8 or more (the IndexError of `gpioOuList[outIdx]`); each error occurs exactly in its case, and otherwise the result is the relay at that output index with tag `(plcIdx + 1) * 100 + outIdx` |
| HmiPanel.ButtonNameRoundTrip | src/scadaEmuUI/hmiPanel.py:82-98 | a button name `plcName + ':' + str(i)` parses back to `i` |
| HmiPanel.PlcIndexOfButton | src/scadaEmuUI/hmiPanel.py:82-97 | on a button name whose panel name has no `[` and whose index is below 10, the PLC index read is the button's own index |
| HmiPanel.RelayTargetOfButton | src/scadaEmuUI/hmiPanel.py:82-103 | pressing button `i` of such a panel targets output `i` with tag `(i + 1) * 100 + i` |
| HmiPanel.PanelPLC.constructor | src/scadaEmuUI/hmiPanel.py:23-36 | a new panel has 16 input zeros, 8 output zeros and is shown unconnected |
| HmiPanel.PanelPLC.CopyPrefix | src/scadaEmuUI/hmiPanel.py:120-123 | the index loop leaves the array equal to the old contents overlaid by the update |
| HmiPanel.PanelPLC.UpdateHoldingRegs | src/scadaEmuUI/hmiPanel.py:118-123 | `None` leaves the inputs as they were; a list is overlaid onto the 16 inputs |
| HmiPanel.PanelPLC.UpdateCoils | src/scadaEmuUI/hmiPanel.py:128-133 | `None` leaves the outputs as they were; a list is overlaid onto the 8 outputs |
| HmiPanel.ListPos | src/scadaEmuUI/hmiPanel.py:160-161 | a list subscript is valid exactly in [-len, len); a non-negative one denotes itself and a negative one counts from the end |
| HmiPanel.PanelPLC.WriteChecked | src/scadaEmuUI/hmiPanel.py:157-161 | with an index below 8 and status 0 or 1, the entry the subscript denotes is set alone, and a subscript below `-len` raises IndexError; an index of 8 or more, or another status, changes nothing |
| HmiPanel.PanelPLC.UpdateInput | src/scadaEmuUI/hmiPanel.py:155-161 | `updateInput` on the 16 inputs: index in [0, 8) sets that entry, index in [-16, 0) sets entry `16 + idx`, index below -16 raises IndexError, index of 8 or more or a status other than 0/1 changes nothing |
| HmiPanel.PanelPLC.UpdateOutput | src/scadaEmuUI/hmiPanel.py:168-174 | `updateOutput` on the 8 outputs: index in [0, 8) sets that entry, index in [-8, 0) sets entry `8 + idx`, index below -8 raises IndexError, index of 8 or more or a status other than 0/1 changes nothing |
| HmiPanel.PanelPLC.RelayOn | src/scadaEmuUI/hmiPanel.py:91-103 | the unbound click handler, as written: the outcome is the one `RelayTarget` gives; on success the named output is toggled and nothing else changes, on failure the outputs are unchanged |
| HmiPanel.PanelPLC.SetConnection | src/scadaEmuUI/hmiPanel.py:110-113 | states 0 and 1 set the connection label, any other state is rejected and leaves it |
| HmiEmuRun.TrackIndex | src/scadaEmuUI/hmiEmuRun.py:65-86 | each line has its own entry in the range table |
| HmiEmuRun.TrackTableTiles | src/scadaEmuUI/hmiEmuRun.py:65-86 | the sensor ranges lie end to end over registers [0, 39), the signal ranges over coils [0, 19), and the station ranges over [0, 22); each line appears once |
| HmiEmuRun.JunctionRegisterOwner | src/scadaEmuUI/hmiEmuRun.py:65-86 | every junction register below 39 feeds the sensors of exactly one line |
| HmiEmuRun.JunctionCoilOwner | src/scadaEmuUI/hmiEmuRun.py:65-86 | every junction coil below 19 drives the signals of exactly one line |
| HmiEmuRun.TrackWidthsMatchTopology | src/scadaEmuUI/hmiEmuRun.py:65-86 | each line's sensor range is as wide as its sensor count (17/8/14) and its signal range as its signal count (8/4/7) |
| HmiEmuRun.SensorSlice | src/scadaEmuUI/hmiEmuRun.py:299-300 | a line's register slice is never wider than its sensor range, and is exactly `regs[lo:hi]` of the range when the snapshot reaches the range's end |
| HmiEmuRun.SignalSlice | src/scadaEmuUI/hmiEmuRun.py:302-303 | a line's coil slice is never wider than its signal range, and is exactly `coils[lo:hi]` of the range when the snapshot reaches the range's end |
| HmiEmuRun.FullSnapshotApplies | src/scadaEmuUI/hmiEmuRun.py:300-306 | with at least 39 registers and 19 coils, each line's sensors become exactly its register slice and its signals exactly its coil slice |
| HmiEmuRun.ShortSnapshotSkipsCcLine | src/scadaEmuUI/hmiEmuRun.py:300-303 | a register snapshot that stops inside the circle line's range leaves that line's sensors unchanged |
| HmiEmuRun.Plc00Labels | src/scadaEmuUI/hmiEmuRun.py:98-106 | PLC-00 shows `wes00`..`wes14` and `Swe00`..`Swe06`, all on the west-east line |
| HmiEmuRun.Plc01InputLabels | src/scadaEmuUI/hmiEmuRun.py:109-118 | PLC-01's inputs are `wes14`, `wes15`, `nss00`..`nss07`, `ccs00`..`ccs04`, in that order |
| HmiEmuRun.WeLineInputLabels | src/scadaEmuUI/hmiEmuRun.py:98-112 | the two junction panels show `wes14` twice and never `wes16`, though the west-east line has 17 sensors |
| HmiEmuRun.JunctionWestLabels | src/scadaEmuUI/hmiEmuRun.py:98-106 | the PLC-00 loops build exactly PLC-00's label lists |
| HmiEmuRun.JunctionMixedLabels | src/scadaEmuUI/hmiEmuRun.py:109-129 | the PLC-01 loops build exactly PLC-01's label lists |
| HmiEmuRun.JunctionCircleLabels | src/scadaEmuUI/hmiEmuRun.py:132-140 | the PLC-02 loops build exactly PLC-02's label lists |
| HmiEmuRun.StationLabels | src/scadaEmuUI/hmiEmuRun.py:143-180 | the loops of PLC-03 to PLC-05 build exactly their label lists |
| HmiEmuRun.LabelTablesFitPanels | src/scadaEmuUI/hmiEmuRun.py:91-180 | both label tables name exactly PLC-00 to PLC-05, and every panel has at most 16 input labels and 8 output labels |
| HmiEmuRun.PushLine | src/scadaEmuUI/hmiEmuRun.py:299-306 | one pass of the junction loop pushes the line's register slice into its sensors and its coil slice into its signals; the other lines' states, and every line's sensor positions and trigger lists, are unchanged |
| HmiEmuRun.PushJunction | src/scadaEmuUI/hmiEmuRun.py:298-306 | after the junction loop, each line holds its earlier states with its own slices of the PLC-00 data pushed in; every line's sensor positions and trigger lists are kept |
| HmiEmuRun.RefreshJunction | src/scadaEmuUI/hmiEmuRun.py:298-306 | on a ready map manager the junction loop keeps it ready and pushes every line's slices; with a full snapshot each line then shows exactly its register and coil slices |
| HmiEmuRun.NewMapMgr | src/scadaEmuUI/hmiEmuRun.py:88 | a new map manager is fresh and ready, every sensor state is 0, and every line's signals are built off from its table, with trigger positions resolved on the trigger line's sensors |
| HmiEmuRun.UIFrame.constructor | src/scadaEmuUI/hmiEmuRun.py:35-58 | a new frame is valid, unlocked, last updated at the given time and holds the label tables that `InitDigitalLbs` builds; its map manager is fresh and ready, every sensor state is 0, and every signal is built off from its table with resolved trigger positions |
| HmiEmuRun.UIFrame.InitDigitalLbs | src/scadaEmuUI/hmiEmuRun.py:91-180 | `_initDigitalLbs`: the label loops of the six panels build exactly the two label tables |
| HmiEmuRun.UIFrame.Stamp | src/scadaEmuUI/hmiEmuRun.py:279 | records the time; the lock, the labels and every line's sensor positions, trigger lists, sensor states and signal states are kept |
| HmiEmuRun.UIFrame.Periodic | src/scadaEmuUI/hmiEmuRun.py:275-306 | runs exactly when unlocked and at least the update rate has elapsed; then records the time and, outside test mode, pushes PLC-00's slices into every line, which with a full snapshot shows exactly those slices; every line's positions and trigger lists, the lock and the labels are always kept; when it does not push, no sensor or signal state changes |
| HmiEmuRun.FirstRefresh | src/scadaEmuUI/hmiEmuRun.py:275-306 | a frame built outside test mode and ticked once, one update rate later, with a full PLC-00 snapshot shows exactly each line's register and coil slices |
| TrainCtrlRun.TrainIndex | src/trainCtrlUI/trainCtrlRun.py:58-73 | each line has its own entry in the train table |
| TrainCtrlRun.TrainIndexOfEntry | src/trainCtrlUI/trainCtrlRun.py:58-73 | the table's `n`-th entry is the line whose index is `n` |
| TrainCtrlRun.TrainTableTiles | src/trainCtrlUI/trainCtrlRun.py:60-73 | the register and coil ranges lie end to end over [0, 10); each range is as wide as the line's train count; each line appears once |
| TrainCtrlRun.TrainCoilOwner | src/trainCtrlUI/trainCtrlRun.py:60-73 | each of the ten train coils belongs to exactly one line |
| TrainCtrlRun.LabelTablesFitPanels | src/trainCtrlUI/trainCtrlRun.py:79-120 | both label tables name exactly PLC-06 and PLC-07, and no panel has more than 16 input labels or 8 output labels |
| TrainCtrlRun.SensorPowerPair | src/trainCtrlUI/trainCtrlRun.py:86-110 | a power label is its sensor label with `P` in place of `S` |
| TrainCtrlRun.Plc06Labels | src/trainCtrlUI/trainCtrlRun.py:86-110 | PLC-06's inputs are `weS00`..`weS03`, `nsS00`..`nsS02`, `ccS00`, and its outputs are the same names and lines with `P` for `S` |
| TrainCtrlRun.Plc07Labels | src/trainCtrlUI/trainCtrlRun.py:112-120 | PLC-07 shows `ccS02`, `ccS03` and `ccP02`, `ccP03` |
| TrainCtrlRun.BuildRow | src/trainCtrlUI/trainCtrlRun.py:219-234 | a line's row has four slots, train panels for the first `num` and placeholders after, and one blank panel per train |
| TrainCtrlRun.RowsFitSlots | src/trainCtrlUI/trainCtrlRun.py:221-222 | every line's trains fit the four slots, and slot `i` is a placeholder exactly when `i` is at least the line's train count |
| TrainCtrlRun.DispatchCalls | src/trainCtrlUI/trainCtrlRun.py:334-338 | the first `n` lines make two map calls each |
| TrainCtrlRun.DispatchCallsAt | src/trainCtrlUI/trainCtrlRun.py:334-338 | the `m`-th line's calls are its speed slice of the registers and its power slice of the coils, in that order |
| TrainCtrlRun.DispatchPartitions | src/trainCtrlUI/trainCtrlRun.py:334-338 | with ten registers and coils or more, the speed slices of 4, 3 and 3 concatenate to the first ten registers and the power slices to the first ten coils |
| TrainCtrlRun.Dispatch | src/trainCtrlUI/trainCtrlRun.py:331-338 | the loop over lines makes exactly the calls `DispatchCalls` lists |
| TrainCtrlRun.UpdateRow | src/trainCtrlUI/trainCtrlRun.py:352-353 | the `enumerate` loop copies info `i` onto panel `i`; it completes exactly when there is no more info than panels, and otherwise fills every panel before failing |
| TrainCtrlRun.UpdateFrom | src/trainCtrlUI/trainCtrlRun.py:348-353 | updating the lines from the `n`-th on keeps every line and every panel count |
| TrainCtrlRun.UpdatePanels | src/trainCtrlUI/trainCtrlRun.py:348-353 | the loop over lines leaves the panels and the completion `UpdateFrom` gives |
| TrainCtrlRun.UpdateFromKeeps | src/trainCtrlUI/trainCtrlRun.py:350 | lines before the starting one are untouched |
| TrainCtrlRun.UpdateFromEffect | src/trainCtrlUI/trainCtrlRun.py:350-353 | a line's panels take its info exactly when no earlier line from the start had more info than panels, and otherwise stay unchanged |
| TrainCtrlRun.UpdateFromComplete | src/trainCtrlUI/trainCtrlRun.py:350-353 | the update completes exactly when no remaining line has more info than panels |
| TrainCtrlRun.UpdateShows | src/trainCtrlUI/trainCtrlRun.py:348-353 | a line's panel `i` shows info `i` when no line before it overflowed; a line after an overflow keeps its panels |
| TrainCtrlRun.UpdateCompleteIff | src/trainCtrlUI/trainCtrlRun.py:348-353 | the whole update completes if and only if every line has no more info than panels |
| TrainCtrlRun.TrainFrame.constructor | src/trainCtrlUI/trainCtrlRun.py:31-55 | a new frame holds the label tables and four slots per line with blank train panels; all ten trains are marked powered; outside test mode the ten power-on writes are logged; unlocked, last updated at the given time |
| TrainCtrlRun.TrainFrame.InitDigitalLbs | src/trainCtrlUI/trainCtrlRun.py:79-120 | `_initDigitalLbs` gives PLC-06 and PLC-07 exactly their label lists |
| TrainCtrlRun.TrainFrame.BuildTrainState | src/trainCtrlUI/trainCtrlRun.py:217-234 | every line gets four slots as `SlotOf` places them and one blank panel per train |
| TrainCtrlRun.TrainFrame.TurnOnAllTrainsPwr | src/trainCtrlUI/trainCtrlRun.py:366-373 | all ten trains are marked powered; outside test mode coils 0 to 9 are written on, in order, after the earlier writes; nothing else changes |
| TrainCtrlRun.TrainFrame.UpdateTrainsPanels | src/trainCtrlUI/trainCtrlRun.py:348-353 | the train panels become what `UpdateFrom` gives, and no other field changes |
| TrainCtrlRun.TrainFrame.Periodic | src/trainCtrlUI/trainCtrlRun.py:310-342 | runs exactly when unlocked and at least the update rate has elapsed; then records the time, outside test mode issues every line's speed and power slices, and updates the train panels; otherwise nothing changes |
| CoilWrites.LastWrite | attack/falseCmdinjector.py:33-38 | there is a last write to a coil exactly when some write targets it |
| CoilWrites.LastWriteCons | attack/falseCmdinjector.py:33-38 | a later write to a coil takes precedence over an earlier one |
| CoilWrites.ApplyLastWrite | attack/falseCmdinjector.py:33-38 | after a sequence of writes each coil holds its last written value, or its old value when no write touches it |
| CoilWrites.LastWriteAt | attack/falseCmdinjector.py:33-38 | a write that no later write to the same coil follows decides that coil |
| CoilWrites.PowerOnEffect | src/trainCtrlUI/trainCtrlRun.py:366-373 | after power-on, coils 0 to 9 are on and every other coil is as it was |
| CoilWrites.InjectionAfterPowerOn | attack/falseCmdinjector.py:33-38 | replaying the injector after power-on leaves `train-we0` running, `train-we1` stopped and coil 10 cleared, and keeps trains 2 to 9 powered |

## Left out

- Rendering is not modelled: frames, sizers, fonts, colours, bitmaps, menus, status bar, timers, message boxes and refreshes. The model keeps only the lists and fields these screens display.
- The data managers and the train map manager are not modelled. Their getters become sequences passed in. `setPlcCoilsData` becomes an entry in an ordered write log. `updateTrainsSpeed`/`updateTrainsPwr` become an ordered log of calls. `getTrainsInfo` becomes a per-line sequence of opaque `TrainInfo` records.
- Test mode stands for "no data manager": both frames skip the data-manager work exactly when `testMode` holds. The train frame's map manager is assumed present.
- Wall-clock time is an integer parameter, not a float from `time.time()`. The time label is left out.
- HmiEmuRun.UIFrame.Periodic: the panel refresh loop (src/scadaEmuUI/hmiEmuRun.py:284-295) is not modelled. Its ranges come from a configuration table that is not part of this model. The station loop (src/scadaEmuUI/hmiEmuRun.py:309-317) is left out too, since it calls map-manager methods that hmiMgr.py does not define. The data manager's own `periodic` and the map panel's `periodic` are not part of this model.
- TrainCtrlRun.TrainFrame.Periodic: the panel refresh loop (src/trainCtrlUI/trainCtrlRun.py:318-329), the data manager's own `periodic` and the information grid refresh are not modelled.
- HmiPanel.PanelPLC.RelayOn: modelled as written, although no button is bound to it (src/scadaEmuUI/hmiPanel.py:83), so the running HMI never calls it.
- HmiPanel.PanelPLC.RelayOn: the search for the tag among the power-control panel's labels, and the resulting `setSignalPwr` call (src/scadaEmuUI/hmiPanel.py:104-107), are left out. That panel is not part of this model.
- Text.ParseNat: accepts ASCII decimal digit strings only. Python's `int` also accepts a sign, surrounding blanks, underscores between digits and non-ASCII decimal digits. The button names the panel builds contain none of them.
- HmiPanel.OutIndexOf: inherits that restriction from `Text.ParseNat`.
- HmiPanel.PlcIndexOf: reads one character with `Text.ParseNat`, so a non-ASCII decimal digit there is not read as a digit.
- HmiPanel.PanelPLC.constructor: models the panel's own signature `(name, ipAddr)`. The SCADA frame passes label lists that this signature does not accept. The output buttons and input labels are not modelled.
- Coil values on the PLC panel are the integers 0 and 1, because the panel compares and toggles them as numbers.
- Sensor and signal positions are sequences of integers, because one signal position (`cc-2`) has three coordinates.
- HmiMgr.AgentSensors.UpdateSensorsState: a list that replaces the states is a value. The source keeps the caller's list object, so later changes to that list would show through.
- HmiMgr.MapMgr.GetSensors: the track id is always a string. Python's default `None` is modelled as the empty string, which returns the whole map, as `None` does.
- `print` logging, and the `parent` references of the map objects, are left out.
- CoilWrites.InjectionAfterPowerOn: the injector's connection wait, its sleeps and its endless print loop are left out. Its three writes are replayed against the same coil vector that the train HMI's power-on writes address.
- HmiEmuRun.SensorSlice: assumes that `getPlcHRegsData('PLC-00', lo, hi)` returns the slice `[lo:hi]` of one stored register vector. The data manager is not part of this model.
- HmiEmuRun.SignalSlice: assumes the same of `getPlcCoilsData` and one stored coil vector.
- HmiEmuRun.PushJunction: the data manager returning `None` for PLC-00 is not modelled. The source would then raise in `len(statList)` (src/scadaEmuUI/hmiMgr.py:40) and in `len(stateList)` (src/scadaEmuUI/hmiMgr.py:201).
- HmiMgr.MapMgr.SetSensors: takes a `Line`, so the KeyError for an unknown track id (src/scadaEmuUI/hmiMgr.py:198) is not modelled.
- HmiMgr.MapMgr.SetSingals: takes a `Line`, so the KeyError for an unknown track id (src/scadaEmuUI/hmiMgr.py:201) is not modelled.
- HmiEmuRun.TrackTable: the order of the lines is taken as the insertion order of src/scadaEmuUI/hmiEmuRun.py:67-86 (weline, nsline, ccline). The dictionary `gTrackConfig` itself is declared in the global-values module, which is not part of this model.
- TrainCtrlRun.TrainTable: the order of the lines is taken as the insertion order of src/trainCtrlUI/trainCtrlRun.py:59-72 (weline, nsline, ccline). This order decides the order of the train map calls in `Dispatch` and which lines `UpdateFrom` reaches before an overflowing line fails.
