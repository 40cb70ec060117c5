/**
 * The main frame of the SCADA HMI (src/scadaEmuUI/hmiEmuRun.py): the
 * per-line table of index ranges into the junction and station PLCs'
 * registers and coils, the digital I/O labels of the six PLC panels, and
 * the rate-gated periodic step that slices the junction PLC's registers and
 * coils and pushes each line's slice into the map manager.
 */
module HmiEmuRun {
  import opened Wrappers
  import opened Ranges
  import opened Text
  import opened Tracks
  import opened DigitalLabels
  import HmiPanel
  import opened HmiMgr

  /**
   * One line's entry of `gTrackConfig`: its junction sensors and signals
   * (registers and coils of the junction PLC) and its station sensors and
   * signals (registers and coils of the station PLC).
   */
  datatype TrackConfig = TrackConfig(
    line: Line,
    sensorIdx: Range,
    signalIdx: Range,
    stationSensorIdx: Range,
    stationSignalIdx: Range)

  /** `_initGlobals`: the lines in the order they are entered, and so visited. */
  const TrackTable: seq<TrackConfig> := [
    TrackConfig(WeLine, Range(0, 17), Range(0, 8), Range(0, 10), Range(0, 10)),
    TrackConfig(NsLine, Range(17, 25), Range(8, 12), Range(10, 16), Range(10, 16)),
    TrackConfig(CcLine, Range(25, 39), Range(12, 19), Range(16, 22), Range(16, 22))
  ]

  /** Position of a line in `TrackTable`. */
  function TrackIndex(line: Line): (n: nat)
    ensures n < |TrackTable| && TrackTable[n].line == line
  {
    match line
    case WeLine => 0
    case NsLine => 1
    case CcLine => 2
  }

  /** The configuration of one line. */
  function ConfigOf(line: Line): TrackConfig
  {
    TrackTable[TrackIndex(line)]
  }

  function SensorRanges(): seq<Range> { seq(|TrackTable|, n requires 0 <= n < |TrackTable| => TrackTable[n].sensorIdx) }
  function SignalRanges(): seq<Range> { seq(|TrackTable|, n requires 0 <= n < |TrackTable| => TrackTable[n].signalIdx) }
  function StationSensorRanges(): seq<Range> { seq(|TrackTable|, n requires 0 <= n < |TrackTable| => TrackTable[n].stationSensorIdx) }
  function StationSignalRanges(): seq<Range> { seq(|TrackTable|, n requires 0 <= n < |TrackTable| => TrackTable[n].stationSignalIdx) }

  /**
   * Each column of the table lays its three ranges end to end: junction
   * sensors over registers [0, 39), junction signals over coils [0, 19),
   * station sensors and signals over [0, 22); each line appears once.
   */
  lemma TrackTableTiles()
    ensures Tiles(SensorRanges(), 0, 39) && Tiles(SignalRanges(), 0, 19)
    ensures Tiles(StationSensorRanges(), 0, 22) && Tiles(StationSignalRanges(), 0, 22)
    ensures forall n, m :: 0 <= n < m < |TrackTable| ==> TrackTable[n].line != TrackTable[m].line
  {
    assert SensorRanges() == [Range(0, 17), Range(17, 25), Range(25, 39)];
    assert SignalRanges() == [Range(0, 8), Range(8, 12), Range(12, 19)];
    assert StationSensorRanges() == [Range(0, 10), Range(10, 16), Range(16, 22)];
    assert StationSignalRanges() == [Range(0, 10), Range(10, 16), Range(16, 22)];
  }

  /** Every junction register below 39 feeds the sensors of exactly one line. */
  lemma JunctionRegisterOwner(k: nat)
    requires k < 39
    ensures exists line: Line :: ConfigOf(line).sensorIdx.Contains(k)
    ensures forall l1: Line, l2: Line ::
              ConfigOf(l1).sensorIdx.Contains(k) && ConfigOf(l2).sensorIdx.Contains(k) ==> l1 == l2
  {
    TrackTableTiles();
    TilesCover(SensorRanges(), 0, 39, k);
    var n :| 0 <= n < |SensorRanges()| && SensorRanges()[n].Contains(k);
    assert ConfigOf(TrackTable[n].line).sensorIdx.Contains(k);
    forall l1: Line, l2: Line | ConfigOf(l1).sensorIdx.Contains(k) && ConfigOf(l2).sensorIdx.Contains(k)
      ensures l1 == l2
    {
      if TrackIndex(l1) != TrackIndex(l2) {
        TilesDisjoint(SensorRanges(), 0, 39, TrackIndex(l1), TrackIndex(l2), k);
      }
    }
  }

  /** Every junction coil below 19 drives the signals of exactly one line. */
  lemma JunctionCoilOwner(k: nat)
    requires k < 19
    ensures exists line: Line :: ConfigOf(line).signalIdx.Contains(k)
    ensures forall l1: Line, l2: Line ::
              ConfigOf(l1).signalIdx.Contains(k) && ConfigOf(l2).signalIdx.Contains(k) ==> l1 == l2
  {
    TrackTableTiles();
    TilesCover(SignalRanges(), 0, 19, k);
    var n :| 0 <= n < |SignalRanges()| && SignalRanges()[n].Contains(k);
    assert ConfigOf(TrackTable[n].line).signalIdx.Contains(k);
    forall l1: Line, l2: Line | ConfigOf(l1).signalIdx.Contains(k) && ConfigOf(l2).signalIdx.Contains(k)
      ensures l1 == l2
    {
      if TrackIndex(l1) != TrackIndex(l2) {
        TilesDisjoint(SignalRanges(), 0, 19, TrackIndex(l1), TrackIndex(l2), k);
      }
    }
  }

  /** Each line's junction ranges are exactly as wide as the sensor and signal sets the map manager builds. */
  lemma TrackWidthsMatchTopology(line: Line)
    ensures ConfigOf(line).sensorIdx.Width() == |SensorPositions(line)|
    ensures ConfigOf(line).signalIdx.Width() == |SignalTable(line)|
  {
    SignalTablesResolvable();
  }

  /** The PLC whose registers and coils carry the junction sensors and signals. */
  const JunctionPlc: string := "PLC-00"
  /** The PLC whose registers and coils carry the station sensors and signals. */
  const StationPlc: string := "PLC-03"

  /** The registers and coils the data manager holds for one PLC. */
  datatype PlcData = PlcData(regs: seq<int>, coils: seq<bool>)

  /**
   * `getPlcHRegsData(plc, *sensorIdx)`: a line's junction sensor registers,
   * never more than the line has sensors, and all of them once the snapshot
   * reaches the end of the line's range.
   */
  function SensorSlice(plc: PlcData, line: Line): (r: seq<int>)
    ensures |r| <= ConfigOf(line).sensorIdx.Width()
    ensures ConfigOf(line).sensorIdx.hi <= |plc.regs| ==>
              r == plc.regs[ConfigOf(line).sensorIdx.lo..ConfigOf(line).sensorIdx.hi]
  {
    PySlice(plc.regs, ConfigOf(line).sensorIdx.lo, ConfigOf(line).sensorIdx.hi)
  }

  /**
   * `getPlcCoilsData(plc, *signalIdx)`: a line's junction signal coils,
   * never more than the line has signals, and all of them once the snapshot
   * reaches the end of the line's range.
   */
  function SignalSlice(plc: PlcData, line: Line): (r: seq<bool>)
    ensures |r| <= ConfigOf(line).signalIdx.Width()
    ensures ConfigOf(line).signalIdx.hi <= |plc.coils| ==>
              r == plc.coils[ConfigOf(line).signalIdx.lo..ConfigOf(line).signalIdx.hi]
  {
    PySlice(plc.coils, ConfigOf(line).signalIdx.lo, ConfigOf(line).signalIdx.hi)
  }

  /**
   * With a full junction snapshot (39 registers and 19 coils or more) every
   * push of the periodic step applies: a line's sensors become exactly its
   * register slice and its signals exactly its coil slice.
   */
  lemma FullSnapshotApplies(plc: PlcData, line: Line, states: seq<int>, signals: seq<bool>)
    requires 39 <= |plc.regs| && 19 <= |plc.coils|
    requires |states| == |SensorPositions(line)| && |signals| == |SignalTable(line)|
    ensures PushSensors(states, SensorSlice(plc, line)) ==
              plc.regs[ConfigOf(line).sensorIdx.lo..ConfigOf(line).sensorIdx.hi]
    ensures PushSignals(signals, SignalSlice(plc, line)) ==
              plc.coils[ConfigOf(line).signalIdx.lo..ConfigOf(line).signalIdx.hi]
  {
    TrackWidthsMatchTopology(line);
    SliceOfRange(plc.regs, ConfigOf(line).sensorIdx);
    SliceOfRange(plc.coils, ConfigOf(line).signalIdx);
  }

  /** A snapshot that stops inside the circle line's registers leaves that line's sensors as they were. */
  lemma ShortSnapshotSkipsCcLine(plc: PlcData, states: seq<int>)
    requires 25 <= |plc.regs| < 39 && |states| == |SensorPositions(CcLine)|
    ensures PushSensors(states, SensorSlice(plc, CcLine)) == states
  {
  }

  function Plc00In(): seq<DigitalLabel> { Labels("wes", WeLine, 0, 15) }
  function Plc00Out(): seq<DigitalLabel> { Labels("Swe", WeLine, 0, 7) }
  function Plc01In(): seq<DigitalLabel>
  {
    Labels("wes", WeLine, 14, 16) + Labels("nss", NsLine, 0, 8) + Labels("ccs", CcLine, 0, 5)
  }
  function Plc01Out(): seq<DigitalLabel>
  {
    [DigitalLabel(ItemName("Swe", 7), WeLine)] + Labels("Sns", NsLine, 0, 4) + Labels("Scc", CcLine, 0, 2)
  }
  function Plc02In(): seq<DigitalLabel> { Labels("Scc", CcLine, 4, 13) }
  function Plc02Out(): seq<DigitalLabel> { Labels("Scc", CcLine, 2, 7) }
  function Plc03In(): seq<DigitalLabel> { Labels("west", WeLine, 0, 8) }
  function Plc03Out(): seq<DigitalLabel> { Labels("STwe", WeLine, 0, 8) }
  function Plc04In(): seq<DigitalLabel> { Labels("west", WeLine, 8, 10) + Labels("nsst", NsLine, 0, 6) }
  function Plc04Out(): seq<DigitalLabel> { Labels("STwe", WeLine, 8, 10) + Labels("STns", NsLine, 0, 6) }
  function Plc05In(): seq<DigitalLabel> { Labels("ccst", CcLine, 0, 6) }
  function Plc05Out(): seq<DigitalLabel> { Labels("STcc", CcLine, 0, 6) }

  /** The input labels of the six PLC panels. */
  function InLabelTable(): map<string, seq<DigitalLabel>>
  {
    map["PLC-00" := Plc00In(), "PLC-01" := Plc01In(), "PLC-02" := Plc02In(),
        "PLC-03" := Plc03In(), "PLC-04" := Plc04In(), "PLC-05" := Plc05In()]
  }

  /** The output labels of the six PLC panels. */
  function OutLabelTable(): map<string, seq<DigitalLabel>>
  {
    map["PLC-00" := Plc00Out(), "PLC-01" := Plc01Out(), "PLC-02" := Plc02Out(),
        "PLC-03" := Plc03Out(), "PLC-04" := Plc04Out(), "PLC-05" := Plc05Out()]
  }
  /**
   * Both label tables name exactly the six PLC panels, and every panel's
   * labels fit its `regsNum` inputs and `coilsNum` outputs.
   */
  lemma LabelTablesFitPanels()
    ensures InLabelTable().Keys == OutLabelTable().Keys == {"PLC-00", "PLC-01", "PLC-02", "PLC-03", "PLC-04", "PLC-05"}
    ensures forall p :: p in InLabelTable() ==> |InLabelTable()[p]| <= HmiPanel.RegsNum
    ensures forall p :: p in OutLabelTable() ==> |OutLabelTable()[p]| <= HmiPanel.CoilsNum
  {
  }


  /** PLC-00 shows inputs `wes00` to `wes14` and outputs `Swe00` to `Swe06`, all on the west-east line. */
  lemma Plc00Labels()
    ensures |Plc00In()| == 15 && |Plc00Out()| == 7
    ensures forall i :: 0 <= i < 15 ==>
              Plc00In()[i].item == "wes" + [DigitChar(i / 10), DigitChar(i % 10)] && Plc00In()[i].line == WeLine
    ensures forall i :: 0 <= i < 7 ==>
              Plc00Out()[i].item == "Swe" + [DigitChar(0), DigitChar(i)] && Plc00Out()[i].line == WeLine
  {
    forall i | 0 <= i < 15
      ensures Plc00In()[i].item == "wes" + [DigitChar(i / 10), DigitChar(i % 10)]
    {
      ItemNameDigits("wes", i);
    }
    forall i | 0 <= i < 7
      ensures Plc00Out()[i].item == "Swe" + [DigitChar(0), DigitChar(i)]
    {
      ItemNameDigits("Swe", i);
    }
  }

  /** PLC-01 shows, in order, `wes14`, `wes15`, `nss00`..`nss07` and `ccs00`..`ccs04`. */
  lemma Plc01InputLabels()
    ensures |Plc01In()| == 15
    ensures Plc01In()[0] == DigitalLabel(ItemName("wes", 14), WeLine)
    ensures Plc01In()[1] == DigitalLabel(ItemName("wes", 15), WeLine)
    ensures forall j :: 0 <= j < 8 ==> Plc01In()[2 + j] == DigitalLabel(ItemName("nss", j), NsLine)
    ensures forall j :: 0 <= j < 5 ==> Plc01In()[10 + j] == DigitalLabel(ItemName("ccs", j), CcLine)
  {
    var a, b, c := Labels("wes", WeLine, 14, 16), Labels("nss", NsLine, 0, 8), Labels("ccs", CcLine, 0, 5);
    assert Plc01In() == a + b + c;
    forall j | 0 <= j < 8
      ensures Plc01In()[2 + j] == DigitalLabel(ItemName("nss", j), NsLine)
    {
      assert (a + b + c)[2 + j] == b[j];
    }
    forall j | 0 <= j < 5
      ensures Plc01In()[10 + j] == DigitalLabel(ItemName("ccs", j), CcLine)
    {
      assert (a + b + c)[10 + j] == c[j];
    }
  }

  /**
   * The west-east junction inputs of PLC-00 and PLC-01 together hold 17
   * labels, one per west-east sensor, but `wes14` is shown on both panels
   * and no label reads `wes16`.
   */
  lemma WeLineInputLabels()
    ensures |Plc00In()| + 2 == |SensorPositions(WeLine)|
    ensures Plc00In()[14].item == Plc01In()[0].item == ItemName("wes", 14)
    ensures forall j :: 0 <= j < |Plc00In()| ==> Plc00In()[j].item != ItemName("wes", 16)
    ensures forall j :: 0 <= j < |Plc01In()| ==> Plc01In()[j].item != ItemName("wes", 16)
  {
    Plc01InputLabels();
    LabelsExclude("wes", WeLine, 0, 15, 16);
    forall j | 0 <= j < |Plc01In()|
      ensures Plc01In()[j].item != ItemName("wes", 16)
    {
      if j < 2 {
        if Plc01In()[j].item == ItemName("wes", 16) {
          ItemNameInjective("wes", 14 + j, 16);
        }
      } else if j < 10 {
        ItemNamePrefix("nss", "wes", j - 2, 16);
      } else {
        ItemNamePrefix("ccs", "wes", j - 10, 16);
      }
    }
  }

  /** The labels of PLC-00, as `_initDigitalLbs` appends them. */
  method JunctionWestLabels() returns (inLbs: seq<DigitalLabel>, outLbs: seq<DigitalLabel>)
    ensures inLbs == Plc00In() && outLbs == Plc00Out()
  {
    var wes, swe := Labels("wes", WeLine, 0, 15), Labels("Swe", WeLine, 0, 7);
    inLbs := AppendLabels([], "wes", WeLine, 0, 15);
    assert inLbs == wes;
    outLbs := AppendLabels([], "Swe", WeLine, 0, 7);
    assert outLbs == swe;
  }

  /** The labels of PLC-01, as `_initDigitalLbs` appends them. */
  method JunctionMixedLabels() returns (inLbs: seq<DigitalLabel>, outLbs: seq<DigitalLabel>)
    ensures inLbs == Plc01In() && outLbs == Plc01Out()
  {
    var wes, nss, ccs := Labels("wes", WeLine, 14, 16), Labels("nss", NsLine, 0, 8), Labels("ccs", CcLine, 0, 5);
    inLbs := AppendLabels([], "wes", WeLine, 14, 16);
    assert inLbs == wes;
    inLbs := AppendLabels(inLbs, "nss", NsLine, 0, 8);
    assert inLbs == wes + nss;
    inLbs := AppendLabels(inLbs, "ccs", CcLine, 0, 5);
    assert inLbs == wes + nss + ccs;
    var sns, scc := Labels("Sns", NsLine, 0, 4), Labels("Scc", CcLine, 0, 2);
    outLbs := [DigitalLabel(ItemName("Swe", 7), WeLine)];
    outLbs := AppendLabels(outLbs, "Sns", NsLine, 0, 4);
    assert outLbs == [DigitalLabel(ItemName("Swe", 7), WeLine)] + sns;
    outLbs := AppendLabels(outLbs, "Scc", CcLine, 0, 2);
    assert outLbs == [DigitalLabel(ItemName("Swe", 7), WeLine)] + sns + scc;
  }

  /** The labels of PLC-02, as `_initDigitalLbs` appends them. */
  method JunctionCircleLabels() returns (inLbs: seq<DigitalLabel>, outLbs: seq<DigitalLabel>)
    ensures inLbs == Plc02In() && outLbs == Plc02Out()
  {
    var sccIn, sccOut := Labels("Scc", CcLine, 4, 13), Labels("Scc", CcLine, 2, 7);
    inLbs := AppendLabels([], "Scc", CcLine, 4, 13);
    assert inLbs == sccIn;
    outLbs := AppendLabels([], "Scc", CcLine, 2, 7);
    assert outLbs == sccOut;
  }

  /** The labels of the station PLCs PLC-03 to PLC-05, as `_initDigitalLbs` appends them. */
  method StationLabels() returns (in3: seq<DigitalLabel>, out3: seq<DigitalLabel>, in4: seq<DigitalLabel>,
                                  out4: seq<DigitalLabel>, in5: seq<DigitalLabel>, out5: seq<DigitalLabel>)
    ensures in3 == Plc03In() && out3 == Plc03Out()
    ensures in4 == Plc04In() && out4 == Plc04Out()
    ensures in5 == Plc05In() && out5 == Plc05Out()
  {
    in3 := AppendLabels([], "west", WeLine, 0, 8);
    out3 := AppendLabels([], "STwe", WeLine, 0, 8);
    in4 := AppendLabels([], "west", WeLine, 8, 10);
    in4 := AppendLabels(in4, "nsst", NsLine, 0, 6);
    out4 := AppendLabels([], "STwe", WeLine, 8, 10);
    out4 := AppendLabels(out4, "STns", NsLine, 0, 6);
    in5 := AppendLabels([], "ccst", CcLine, 0, 6);
    out5 := AppendLabels([], "STcc", CcLine, 0, 6);
  }

  /** One pass of the junction loop of `periodic`: `line` takes its register slice and its coil slice, the other lines keep theirs. */
  method PushLine(m: MapMgr, plc: PlcData, line: Line)
    requires m.Valid() && m.sensors.Keys == LineKeys && m.signals.Keys == LineKeys
    modifies m.sensors.Values, m.SignalObjects()
    ensures m.Valid() && m.sensors == old(m.sensors) && m.signals == old(m.signals)
    ensures forall k :: k in LineKeys ==> m.sensors[k].posList == old(m.sensors[k].posList)
    ensures forall k :: k in LineKeys ==> TriggersOf(m.signals[k]) == old(TriggersOf(m.signals[k]))
    ensures forall k :: k in LineKeys ==>
              m.sensors[k].states ==
                if k == line then PushSensors(old(m.sensors[k].states), SensorSlice(plc, k)) else old(m.sensors[k].states)
    ensures forall k :: k in LineKeys ==>
              StatesOf(m.signals[k]) ==
                if k == line then PushSignals(old(StatesOf(m.signals[k])), SignalSlice(plc, k)) else old(StatesOf(m.signals[k]))
  {
    var cfg := ConfigOf(line);
    var registList := PySlice(plc.regs, cfg.sensorIdx.lo, cfg.sensorIdx.hi);
    m.SetSensors(line, registList);
    var coilsList := PySlice(plc.coils, cfg.signalIdx.lo, cfg.signalIdx.hi);
    m.SetSingals(line, coilsList);
  }

  /**
   * Each line's sensors hold its earlier sensor states (`we0`, `ns0`, `cc0`)
   * with its slice of `plc`'s registers pushed in, and its signals its
   * earlier signal states (`swe0`, `sns0`, `scc0`) with its slice of `plc`'s
   * coils pushed in, as `setSensors` and `setSingals` apply them.
   */
  ghost predicate PushedOnto(m: MapMgr, plc: PlcData, we0: seq<int>, ns0: seq<int>, cc0: seq<int>,
                             swe0: seq<bool>, sns0: seq<bool>, scc0: seq<bool>)
    requires m.sensors.Keys == LineKeys && m.signals.Keys == LineKeys
    reads m, m.sensors.Values, m.SignalObjects()
  {
    m.sensors[WeLine].states == PushSensors(we0, SensorSlice(plc, WeLine)) &&
    m.sensors[NsLine].states == PushSensors(ns0, SensorSlice(plc, NsLine)) &&
    m.sensors[CcLine].states == PushSensors(cc0, SensorSlice(plc, CcLine)) &&
    StatesOf(m.signals[WeLine]) == PushSignals(swe0, SignalSlice(plc, WeLine)) &&
    StatesOf(m.signals[NsLine]) == PushSignals(sns0, SignalSlice(plc, NsLine)) &&
    StatesOf(m.signals[CcLine]) == PushSignals(scc0, SignalSlice(plc, CcLine))
  }

  /** Each line's sensors hold exactly its register slice of `plc`, and its signals exactly its coil slice. */
  ghost predicate ShowsSnapshot(m: MapMgr, plc: PlcData)
    requires m.sensors.Keys == LineKeys && m.signals.Keys == LineKeys
    reads m, m.sensors.Values, m.SignalObjects()
  {
    forall k :: k in LineKeys ==>
      m.sensors[k].states == SensorSlice(plc, k) && StatesOf(m.signals[k]) == SignalSlice(plc, k)
  }

  /** The junction loop of `periodic`: each line, in table order, takes its slice of `plc`'s registers and coils. */
  method PushJunction(m: MapMgr, plc: PlcData)
    requires m.Valid() && m.sensors.Keys == LineKeys && m.signals.Keys == LineKeys
    modifies m.sensors.Values, m.SignalObjects()
    ensures m.Valid() && m.sensors == old(m.sensors) && m.signals == old(m.signals)
    ensures forall k :: k in LineKeys ==> m.sensors[k].posList == old(m.sensors[k].posList)
    ensures forall k :: k in LineKeys ==> TriggersOf(m.signals[k]) == old(TriggersOf(m.signals[k]))
    ensures PushedOnto(m, plc, old(m.sensors[WeLine].states), old(m.sensors[NsLine].states), old(m.sensors[CcLine].states),
                     old(StatesOf(m.signals[WeLine])), old(StatesOf(m.signals[NsLine])), old(StatesOf(m.signals[CcLine])))
  {
    ghost var we0, ns0, cc0 := m.sensors[WeLine].states, m.sensors[NsLine].states, m.sensors[CcLine].states;
    ghost var swe0, sns0, scc0 := StatesOf(m.signals[WeLine]), StatesOf(m.signals[NsLine]), StatesOf(m.signals[CcLine]);
    for n := 0 to |TrackTable|
      invariant m.Valid() && m.sensors == old(m.sensors) && m.signals == old(m.signals)
      invariant forall k :: k in LineKeys ==> m.sensors[k].posList == old(m.sensors[k].posList)
      invariant forall k :: k in LineKeys ==> TriggersOf(m.signals[k]) == old(TriggersOf(m.signals[k]))
      invariant m.sensors[WeLine].states == if 0 < n then PushSensors(we0, SensorSlice(plc, WeLine)) else we0
      invariant m.sensors[NsLine].states == if 1 < n then PushSensors(ns0, SensorSlice(plc, NsLine)) else ns0
      invariant m.sensors[CcLine].states == if 2 < n then PushSensors(cc0, SensorSlice(plc, CcLine)) else cc0
      invariant StatesOf(m.signals[WeLine]) == if 0 < n then PushSignals(swe0, SignalSlice(plc, WeLine)) else swe0
      invariant StatesOf(m.signals[NsLine]) == if 1 < n then PushSignals(sns0, SignalSlice(plc, NsLine)) else sns0
      invariant StatesOf(m.signals[CcLine]) == if 2 < n then PushSignals(scc0, SignalSlice(plc, CcLine)) else scc0
    {
      PushLine(m, plc, TrackTable[n].line);
    }
  }

  /**
   * The map manager is consistent and holds, for each of the three lines,
   * the sensors it was built with and as many signals as the line's table has.
   */
  ghost predicate Ready(m: MapMgr)
    reads m, m.sensors.Values
  {
    m.Valid() && m.SensorsBuilt() && m.signals.Keys == LineKeys &&
    |m.signals[WeLine]| == |SignalTable(WeLine)| &&
    |m.signals[NsLine]| == |SignalTable(NsLine)| &&
    |m.signals[CcLine]| == |SignalTable(CcLine)|
  }

  /**
   * The data step of `periodic`: pushes the junction snapshot `plc` line by
   * line; no sensor moves and no trigger changes, and a full snapshot leaves
   * every line showing exactly its slice.
   */
  method RefreshJunction(m: MapMgr, plc: PlcData)
    requires Ready(m)
    modifies m.sensors.Values, m.SignalObjects()
    ensures Ready(m) && m.sensors == old(m.sensors) && m.signals == old(m.signals)
    ensures forall k :: k in LineKeys ==> m.sensors[k].posList == old(m.sensors[k].posList)
    ensures forall k :: k in LineKeys ==> TriggersOf(m.signals[k]) == old(TriggersOf(m.signals[k]))
    ensures PushedOnto(m, plc, old(m.sensors[WeLine].states), old(m.sensors[NsLine].states), old(m.sensors[CcLine].states),
                     old(StatesOf(m.signals[WeLine])), old(StatesOf(m.signals[NsLine])), old(StatesOf(m.signals[CcLine])))
    ensures 39 <= |plc.regs| && 19 <= |plc.coils| ==> ShowsSnapshot(m, plc)
  {
    ghost var we0, ns0, cc0 := m.sensors[WeLine].states, m.sensors[NsLine].states, m.sensors[CcLine].states;
    ghost var swe0, sns0, scc0 := StatesOf(m.signals[WeLine]), StatesOf(m.signals[NsLine]), StatesOf(m.signals[CcLine]);
    PushJunction(m, plc);
    if 39 <= |plc.regs| && 19 <= |plc.coils| {
      FullSnapshotApplies(plc, WeLine, we0, swe0);
      FullSnapshotApplies(plc, NsLine, ns0, sns0);
      FullSnapshotApplies(plc, CcLine, cc0, scc0);
    }
  }

  /**
   * `gv.iMapMgr = MapMgr(self)`: a new map manager, ready, built afresh with
   * every sensor undetected and every signal built off from its table.
   */
  method NewMapMgr() returns (m: MapMgr)
    ensures fresh(m) && fresh(m.sensors.Values) && fresh(m.SignalObjects())
    ensures Ready(m) && forall k :: k in LineKeys ==> AllZero(m.sensors[k].states)
    ensures forall k :: k in LineKeys ==> LineBuilt(m.signals[k], SignalTable(k))
  {
    m := new MapMgr();
  }

  /** The main frame: its update gate, its PLC panel labels and the map manager it feeds. */
  class UIFrame {
    /** `gv.TEST_MD`: no data manager, so no PLC data is pushed. */
    const testMode: bool
    /** `gv.gUpdateRate`: the least time between two updates. */
    const updateRate: int
    /** `gv.iMapMgr`. */
    const mapMgr: MapMgr
    var updateLock: bool
    var lastPeriodicTime: int
    var digitalIn: map<string, seq<DigitalLabel>>
    var digitalOut: map<string, seq<DigitalLabel>>

    /** The map manager is ready for the periodic step. */
    ghost predicate Valid()
      reads this, mapMgr, mapMgr.sensors.Values
    {
      Ready(mapMgr)
    }

    /** `__init__`: builds the map manager and the labels, unlocked, last updated at `now`. */
    constructor (testMode: bool, updateRate: int, now: int)
      ensures Valid()
      ensures forall k :: k in LineKeys ==> AllZero(mapMgr.sensors[k].states)
      ensures forall k :: k in LineKeys ==> LineBuilt(mapMgr.signals[k], SignalTable(k))
      ensures fresh(mapMgr) && fresh(mapMgr.sensors.Values) && fresh(mapMgr.SignalObjects())
      ensures this.testMode == testMode && this.updateRate == updateRate
      ensures !updateLock && lastPeriodicTime == now
      ensures digitalIn == InLabelTable() && digitalOut == OutLabelTable()
    {
      var mgr := NewMapMgr();
      mapMgr := mgr;
      this.testMode := testMode;
      this.updateRate := updateRate;
      var inLbs, outLbs := InitDigitalLbs();
      digitalIn, digitalOut := inLbs, outLbs;
      updateLock := false;
      lastPeriodicTime := now;
    }

    /** `_initDigitalLbs`: the input and output labels of PLC-00 to PLC-05, built loop by loop, panel by panel. */
    static method InitDigitalLbs() returns (inLbs: map<string, seq<DigitalLabel>>, outLbs: map<string, seq<DigitalLabel>>)
      ensures inLbs == InLabelTable() && outLbs == OutLabelTable()
    {
      var p00i, p00o := JunctionWestLabels();
      var p01i, p01o := JunctionMixedLabels();
      var p02i, p02o := JunctionCircleLabels();
      var p03i, p03o, p04i, p04o, p05i, p05o := StationLabels();
      inLbs := map["PLC-00" := p00i, "PLC-01" := p01i, "PLC-02" := p02i,
                   "PLC-03" := p03i, "PLC-04" := p04i, "PLC-05" := p05i];
      outLbs := map["PLC-00" := p00o, "PLC-01" := p01o, "PLC-02" := p02o,
                    "PLC-03" := p03o, "PLC-04" := p04o, "PLC-05" := p05o];
    }

    /**
     * `periodic(now)`: runs only when unlocked and at least `updateRate`
     * after the last run, then records `now`; outside test mode it pushes
     * each line's slice of the junction PLC's registers into its sensors
     * and of its coils into its signals, line by line in table order.
     */
    method Periodic(now: int, data: map<string, PlcData>) returns (ran: bool)
      requires Valid() && (!testMode ==> JunctionPlc in data)
      modifies this, mapMgr.sensors.Values, mapMgr.SignalObjects()
      ensures Valid()
      ensures forall k :: k in LineKeys ==> mapMgr.sensors[k].posList == old(mapMgr.sensors[k].posList)
      ensures forall k :: k in LineKeys ==> TriggersOf(mapMgr.signals[k]) == old(TriggersOf(mapMgr.signals[k]))
      ensures ran <==> !old(updateLock) && now - old(lastPeriodicTime) >= updateRate
      ensures lastPeriodicTime == if ran then now else old(lastPeriodicTime)
      ensures updateLock == old(updateLock) && digitalIn == old(digitalIn) && digitalOut == old(digitalOut)
      ensures ran && !testMode ==>
                PushedOnto(mapMgr, data[JunctionPlc],
                           old(mapMgr.sensors[WeLine].states), old(mapMgr.sensors[NsLine].states), old(mapMgr.sensors[CcLine].states),
                           old(StatesOf(mapMgr.signals[WeLine])), old(StatesOf(mapMgr.signals[NsLine])), old(StatesOf(mapMgr.signals[CcLine])))
      ensures ran && !testMode && 39 <= |data[JunctionPlc].regs| && 19 <= |data[JunctionPlc].coils| ==>
                ShowsSnapshot(mapMgr, data[JunctionPlc])
      ensures !(ran && !testMode) ==>
                (forall k :: k in LineKeys ==> mapMgr.sensors[k].states == old(mapMgr.sensors[k].states)) &&
                (forall k :: k in LineKeys ==> StatesOf(mapMgr.signals[k]) == old(StatesOf(mapMgr.signals[k])))
    {
      if updateLock || now - lastPeriodicTime < updateRate {
        return false;
      }
      ran := true;
      Stamp(now);
      if !testMode {
        RefreshJunction(mapMgr, data[JunctionPlc]);
      }
    }

    /** `self.lastPeriodicTime = now`: the time is recorded and nothing else changes. */
    method Stamp(now: int)
      requires Valid()
      modifies this
      ensures Valid()
      ensures forall k :: k in LineKeys ==> mapMgr.sensors[k].posList == old(mapMgr.sensors[k].posList)
      ensures forall k :: k in LineKeys ==> TriggersOf(mapMgr.signals[k]) == old(TriggersOf(mapMgr.signals[k]))
      ensures lastPeriodicTime == now
      ensures updateLock == old(updateLock) && digitalIn == old(digitalIn) && digitalOut == old(digitalOut)
      ensures forall k :: k in LineKeys ==> mapMgr.sensors[k].states == old(mapMgr.sensors[k].states)
      ensures forall k :: k in LineKeys ==> StatesOf(mapMgr.signals[k]) == old(StatesOf(mapMgr.signals[k]))
    {
      lastPeriodicTime := now;
    }
  }

  /**
   * A frame built at `start` outside test mode and ticked once `updateRate`
   * later shows a full junction snapshot of PLC-00 on every line.
   */
  method FirstRefresh(updateRate: int, start: int, plc: PlcData) returns (f: UIFrame)
    requires 39 <= |plc.regs| && 19 <= |plc.coils|
    ensures f.Valid() && !f.testMode && f.lastPeriodicTime >= start
    ensures ShowsSnapshot(f.mapMgr, plc)
  {
    f := new UIFrame(false, updateRate, start);
    var now := if updateRate > 0 then start + updateRate else start;
    var ran := f.Periodic(now, map[JunctionPlc := plc]);
  }
}
