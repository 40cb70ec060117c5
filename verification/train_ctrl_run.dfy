/**
 * The main frame of the train control HMI (src/trainCtrlUI/trainCtrlRun.py):
 * the per-line table of train register and coil ranges, the PLC-06/PLC-07
 * labels, the four train slots of each line, the power-on writes, the
 * rate-gated periodic step that hands each line its slice of the train
 * PLC's registers and coils, and the train panels it refreshes.
 */
module TrainCtrlRun {
  import opened Wrappers
  import opened Ranges
  import opened Text
  import opened Tracks
  import opened DigitalLabels
  import opened CoilWrites

  /** One line's entry of `gTrackConfig`: its number of trains and their speed registers and power coils. */
  datatype TrainConfig = TrainConfig(line: Line, num: nat, hregIdx: Range, coilIdx: Range)

  /** `_initGlobals`: the lines in the order they are entered, and so visited. */
  const TrainTable: seq<TrainConfig> := [
    TrainConfig(WeLine, 4, Range(0, 4), Range(0, 4)),
    TrainConfig(NsLine, 3, Range(4, 7), Range(4, 7)),
    TrainConfig(CcLine, 3, Range(7, 10), Range(7, 10))
  ]

  /** Number of train slots each line's row of the train state view holds. */
  const SlotsPerLine: nat := 4
  /** Number of train power coils `turnOnallTrainsPwr` switches on. */
  const TrainCoils: nat := 10

  /** Position of a line in `TrainTable`. */
  function TrainIndex(line: Line): (n: nat)
    ensures n < |TrainTable| && TrainTable[n].line == line
  {
    match line
    case WeLine => 0
    case NsLine => 1
    case CcLine => 2
  }

  /** Each entry of the table is at the position of its line. */
  lemma TrainIndexOfEntry(n: nat)
    requires n < |TrainTable|
    ensures TrainIndex(TrainTable[n].line) == n
  {
  }

  /** The configuration of one line. */
  function ConfigOf(line: Line): TrainConfig
  {
    TrainTable[TrainIndex(line)]
  }

  function HregRanges(): seq<Range> { seq(|TrainTable|, n requires 0 <= n < |TrainTable| => TrainTable[n].hregIdx) }
  function CoilRanges(): seq<Range> { seq(|TrainTable|, n requires 0 <= n < |TrainTable| => TrainTable[n].coilIdx) }

  /**
   * The register ranges and the coil ranges each lay the three lines end to
   * end over [0, 10), each line's ranges are as wide as its number of
   * trains, and each line appears once.
   */
  lemma TrainTableTiles()
    ensures Tiles(HregRanges(), 0, TrainCoils) && Tiles(CoilRanges(), 0, TrainCoils)
    ensures forall n :: 0 <= n < |TrainTable| ==>
              TrainTable[n].hregIdx.Width() == TrainTable[n].num == TrainTable[n].coilIdx.Width()
    ensures forall n, m :: 0 <= n < m < |TrainTable| ==> TrainTable[n].line != TrainTable[m].line
  {
    assert HregRanges() == [Range(0, 4), Range(4, 7), Range(7, 10)];
    assert CoilRanges() == [Range(0, 4), Range(4, 7), Range(7, 10)];
  }

  /** Every train coil below 10 powers a train of exactly one line. */
  lemma TrainCoilOwner(k: nat)
    requires k < TrainCoils
    ensures exists line: Line :: ConfigOf(line).coilIdx.Contains(k)
    ensures forall l1: Line, l2: Line ::
              ConfigOf(l1).coilIdx.Contains(k) && ConfigOf(l2).coilIdx.Contains(k) ==> l1 == l2
  {
    TrainTableTiles();
    TilesCover(CoilRanges(), 0, TrainCoils, k);
    var n :| 0 <= n < |CoilRanges()| && CoilRanges()[n].Contains(k);
    assert ConfigOf(TrainTable[n].line).coilIdx.Contains(k);
    forall l1: Line, l2: Line | ConfigOf(l1).coilIdx.Contains(k) && ConfigOf(l2).coilIdx.Contains(k)
      ensures l1 == l2
    {
      if TrainIndex(l1) != TrainIndex(l2) {
        TilesDisjoint(CoilRanges(), 0, TrainCoils, TrainIndex(l1), TrainIndex(l2), k);
      }
    }
  }

  function Plc06In(): seq<DigitalLabel>
  {
    Labels("weS", WeLine, 0, 4) + Labels("nsS", NsLine, 0, 3) + Labels("ccS", CcLine, 0, 1)
  }
  function Plc06Out(): seq<DigitalLabel>
  {
    Labels("weP", WeLine, 0, 4) + Labels("nsP", NsLine, 0, 3) + Labels("ccP", CcLine, 0, 1)
  }
  function Plc07In(): seq<DigitalLabel> { Labels("ccS", CcLine, 2, 4) }
  function Plc07Out(): seq<DigitalLabel> { Labels("ccP", CcLine, 2, 4) }

  /** The input labels of the two PLC panels. */
  function InLabelTable(): map<string, seq<DigitalLabel>>
  {
    map["PLC-06" := Plc06In(), "PLC-07" := Plc07In()]
  }

  /** The output labels of the two PLC panels. */
  function OutLabelTable(): map<string, seq<DigitalLabel>>
  {
    map["PLC-06" := Plc06Out(), "PLC-07" := Plc07Out()]
  }
  /**
   * Both label tables name exactly the two PLC panels, and no panel has more
   * than 16 input labels or 8 output labels.
   */
  lemma LabelTablesFitPanels()
    ensures InLabelTable().Keys == OutLabelTable().Keys == {"PLC-06", "PLC-07"}
    ensures forall p :: p in InLabelTable() ==> |InLabelTable()[p]| <= 16
    ensures forall p :: p in OutLabelTable() ==> |OutLabelTable()[p]| <= 8
  {
  }


  /** Sensor label `S` and power label `P` of one train: they differ in the third character only. */
  lemma SensorPowerPair(line: string, i: nat)
    requires |line| == 2
    ensures ItemName(line + "P", i) == ItemName(line + "S", i)[..2] + "P" + ItemName(line + "S", i)[3..]
  {
    assert ItemName(line + "S", i)[..2] == line;
    assert ItemName(line + "S", i)[3..] == ZFill(NatToString(i), 2);
  }

  /**
   * PLC-06 shows eight trains: `weS00`..`weS03`, `nsS00`..`nsS02`, `ccS00`
   * as inputs, and as outputs the same names with `P` for `S`, on the same lines.
   */
  lemma Plc06Labels()
    ensures |Plc06In()| == |Plc06Out()| == 8
    ensures forall j :: 0 <= j < 4 ==> Plc06In()[j] == DigitalLabel(ItemName("weS", j), WeLine)
    ensures forall j :: 0 <= j < 3 ==> Plc06In()[4 + j] == DigitalLabel(ItemName("nsS", j), NsLine)
    ensures Plc06In()[7] == DigitalLabel(ItemName("ccS", 0), CcLine)
    ensures forall j :: 0 <= j < 8 ==>
              Plc06Out()[j].line == Plc06In()[j].line &&
              Plc06Out()[j].item == Plc06In()[j].item[..2] + "P" + Plc06In()[j].item[3..]
  {
    var a, b, c := Labels("weS", WeLine, 0, 4), Labels("nsS", NsLine, 0, 3), Labels("ccS", CcLine, 0, 1);
    var d, e, f := Labels("weP", WeLine, 0, 4), Labels("nsP", NsLine, 0, 3), Labels("ccP", CcLine, 0, 1);
    assert Plc06In() == a + b + c && Plc06Out() == d + e + f;
    forall j | 0 <= j < 3
      ensures Plc06In()[4 + j] == DigitalLabel(ItemName("nsS", j), NsLine)
    {
      assert (a + b + c)[4 + j] == b[j];
    }
    forall j | 0 <= j < 8
      ensures Plc06Out()[j].line == Plc06In()[j].line
      ensures Plc06Out()[j].item == Plc06In()[j].item[..2] + "P" + Plc06In()[j].item[3..]
    {
      if j < 4 {
        assert "weP" == "we" + "P" && "weS" == "we" + "S";
        SensorPowerPair("we", j);
      } else if j < 7 {
        assert (a + b + c)[j] == b[j - 4] && (d + e + f)[j] == e[j - 4];
        assert "nsP" == "ns" + "P" && "nsS" == "ns" + "S";
        SensorPowerPair("ns", j - 4);
      } else {
        assert (a + b + c)[j] == c[0] && (d + e + f)[j] == f[0];
        assert "ccP" == "cc" + "P" && "ccS" == "cc" + "S";
        SensorPowerPair("cc", 0);
      }
    }
  }

  /** PLC-07 shows the circle line's trains 2 and 3: inputs `ccS02`, `ccS03`, outputs `ccP02`, `ccP03`. */
  lemma Plc07Labels()
    ensures Plc07In() == [DigitalLabel("ccS02", CcLine), DigitalLabel("ccS03", CcLine)]
    ensures Plc07Out() == [DigitalLabel("ccP02", CcLine), DigitalLabel("ccP03", CcLine)]
  {
    ItemNameDigits("ccS", 2);
    ItemNameDigits("ccS", 3);
    ItemNameDigits("ccP", 2);
    ItemNameDigits("ccP", 3);
    assert DigitChar(0) == '0' && DigitChar(2) == '2' && DigitChar(3) == '3';
    assert Plc07In()[0].item == "ccS02" && Plc07In()[1].item == "ccS03";
    assert Plc07Out()[0].item == "ccP02" && Plc07Out()[1].item == "ccP03";
  }

  /** One slot of a line's row in the train state view. */
  datatype Slot = TrainSlot(line: Line, idx: nat) | Placeholder

  /** Slot `i` of `cfg`'s row: a train panel for the first `num` slots, a placeholder after. */
  function SlotOf(cfg: TrainConfig, i: nat): Slot
  {
    if i < cfg.num then TrainSlot(cfg.line, i) else Placeholder
  }

  /** What a train panel shows; the record's fields come from the train data manager and are not modelled. */
  datatype TrainInfo = TrainInfo(fields: map<string, int>)

  /** What a train panel shows before its first update. */
  const Blank: TrainInfo := TrainInfo(map[])

  /** The row of `_buildTrainStateSizer` for one line: four slots, and the train panels among them in order. */
  method BuildRow(cfg: TrainConfig) returns (slots: seq<Slot>, panels: seq<TrainInfo>)
    ensures |slots| == SlotsPerLine && forall i :: 0 <= i < SlotsPerLine ==> slots[i] == SlotOf(cfg, i)
    ensures |panels| == (if cfg.num < SlotsPerLine then cfg.num else SlotsPerLine)
    ensures forall i :: 0 <= i < |panels| ==> panels[i] == Blank
  {
    slots, panels := [], [];
    for i := 0 to SlotsPerLine
      invariant |slots| == i && forall j :: 0 <= j < i ==> slots[j] == SlotOf(cfg, j)
      invariant |panels| == (if cfg.num < i then cfg.num else i)
      invariant forall j :: 0 <= j < |panels| ==> panels[j] == Blank
    {
      if i < cfg.num {
        slots := slots + [TrainSlot(cfg.line, i)];
        panels := panels + [Blank];
      } else {
        slots := slots + [Placeholder];
      }
    }
  }

  /** Every line of the table has a train panel for each of its trains and a placeholder in each remaining slot. */
  lemma RowsFitSlots(n: nat, i: nat)
    requires n < |TrainTable| && i < SlotsPerLine
    ensures TrainTable[n].num <= SlotsPerLine
    ensures SlotOf(TrainTable[n], i).Placeholder? <==> TrainTable[n].hregIdx.Width() <= i
  {
    TrainTableTiles();
  }

  /** A call the periodic step makes on the display manager. */
  datatype MapCall =
    | TrainsSpeed(line: Line, speeds: seq<int>)
    | TrainsPower(line: Line, power: seq<bool>)

  /** The calls of the first `n` passes of the dispatch loop: per line, its speed slice then its power slice. */
  function DispatchCalls(regs: seq<int>, coils: seq<bool>, n: nat): (r: seq<MapCall>)
    requires n <= |TrainTable|
    ensures |r| == 2 * n
  {
    if n == 0 then []
    else
      var cfg := TrainTable[n - 1];
      DispatchCalls(regs, coils, n - 1) +
      [TrainsSpeed(cfg.line, PySlice(regs, cfg.hregIdx.lo, cfg.hregIdx.hi)),
       TrainsPower(cfg.line, PySlice(coils, cfg.coilIdx.lo, cfg.coilIdx.hi))]
  }

  /** Each line gets, in table order, one speed call with its register slice and one power call with its coil slice. */
  lemma {:induction false} DispatchCallsAt(regs: seq<int>, coils: seq<bool>, n: nat, m: nat)
    requires m < n <= |TrainTable|
    ensures DispatchCalls(regs, coils, n)[2 * m] ==
              TrainsSpeed(TrainTable[m].line, PySlice(regs, TrainTable[m].hregIdx.lo, TrainTable[m].hregIdx.hi))
    ensures DispatchCalls(regs, coils, n)[2 * m + 1] ==
              TrainsPower(TrainTable[m].line, PySlice(coils, TrainTable[m].coilIdx.lo, TrainTable[m].coilIdx.hi))
  {
    if m < n - 1 {
      DispatchCallsAt(regs, coils, n - 1, m);
    }
  }

  /**
   * With a full vector of ten registers and ten coils, the speed slices of
   * the three lines are each as long as the line's train count and together
   * are exactly the ten registers, and likewise for the power slices.
   */
  lemma DispatchPartitions(regs: seq<int>, coils: seq<bool>)
    requires TrainCoils <= |regs| && TrainCoils <= |coils|
    ensures var calls := DispatchCalls(regs, coils, |TrainTable|);
            calls[0].TrainsSpeed? && calls[2].TrainsSpeed? && calls[4].TrainsSpeed? &&
            calls[1].TrainsPower? && calls[3].TrainsPower? && calls[5].TrainsPower? &&
            calls[0].speeds + calls[2].speeds + calls[4].speeds == regs[..TrainCoils] &&
            calls[1].power + calls[3].power + calls[5].power == coils[..TrainCoils] &&
            |calls[0].speeds| == 4 && |calls[2].speeds| == 3 && |calls[4].speeds| == 3
  {
    var calls := DispatchCalls(regs, coils, |TrainTable|);
    DispatchCallsAt(regs, coils, 3, 0);
    DispatchCallsAt(regs, coils, 3, 1);
    DispatchCallsAt(regs, coils, 3, 2);
    assert regs[..10] == regs[0..4] + regs[4..7] + regs[7..10];
    assert coils[..10] == coils[0..4] + coils[4..7] + coils[7..10];
  }

  /** The dispatch loop of `periodic`: per line of the table, in order, its speed call then its power call. */
  method Dispatch(regs: seq<int>, coils: seq<bool>) returns (calls: seq<MapCall>)
    ensures calls == DispatchCalls(regs, coils, |TrainTable|)
  {
    calls := [];
    for n := 0 to |TrainTable|
      invariant calls == DispatchCalls(regs, coils, n)
    {
      var cfg := TrainTable[n];
      calls := calls + [TrainsSpeed(cfg.line, PySlice(regs, cfg.hregIdx.lo, cfg.hregIdx.hi))];
      calls := calls + [TrainsPower(cfg.line, PySlice(coils, cfg.coilIdx.lo, cfg.coilIdx.hi))];
    }
  }

  /** Line `n` of the table has more trains info entries than panels: `updateTrainsPanels` raises `IndexError` there. */
  predicate Overflows(panels: map<Line, seq<TrainInfo>>, info: map<Line, seq<TrainInfo>>, n: nat)
    requires n < |TrainTable| && LineKeys <= panels.Keys && LineKeys <= info.Keys
  {
    |panels[TrainTable[n].line]| < |info[TrainTable[n].line]|
  }

  /** The inner loop of `updateTrainsPanels`: panel `i` takes entry `i`, until the entries or the panels run out. */
  method UpdateRow(panels: seq<TrainInfo>, info: seq<TrainInfo>) returns (r: seq<TrainInfo>, ok: bool)
    ensures r == Overlay(panels, info)
    ensures ok <==> |info| <= |panels|
  {
    r := panels;
    for i := 0 to |info|
      invariant |r| == |panels| && i <= |r|
      invariant forall j :: 0 <= j < |r| ==> r[j] == if j < i then info[j] else panels[j]
    {
      if i >= |r| {
        assert r == Overlay(panels, info);
        return r, false;
      }
      r := r[i := info[i]];
    }
    assert r == Overlay(panels, info);
    ok := true;
  }

  /** The panels after an update, and whether the update went through every line without an `IndexError`. */
  datatype PanelsUpdate = PanelsUpdate(panels: map<Line, seq<TrainInfo>>, complete: bool)

  /**
   * `updateTrainsPanels` from position `n` of the table on, step by step:
   * the line's panels take its entries, then the update stops if the line
   * had more entries than panels, and goes on with the next line otherwise.
   */
  function UpdateFrom(panels: map<Line, seq<TrainInfo>>, info: map<Line, seq<TrainInfo>>, n: nat): (r: PanelsUpdate)
    requires n <= |TrainTable| && LineKeys <= panels.Keys && LineKeys <= info.Keys
    ensures r.panels.Keys == panels.Keys
    ensures forall k :: k in panels ==> |r.panels[k]| == |panels[k]|
    decreases |TrainTable| - n
  {
    if n == |TrainTable| then PanelsUpdate(panels, true)
    else
      var line := TrainTable[n].line;
      var next := panels[line := Overlay(panels[line], info[line])];
      if |panels[line]| < |info[line]| then PanelsUpdate(next, false)
      else UpdateFrom(next, info, n + 1)
  }

  /** The loop of `updateTrainsPanels` on the panels of all lines, in table order. */
  method UpdatePanels(panels: map<Line, seq<TrainInfo>>, info: map<Line, seq<TrainInfo>>)
    returns (r: map<Line, seq<TrainInfo>>, ok: bool)
    requires LineKeys <= panels.Keys && LineKeys <= info.Keys
    ensures PanelsUpdate(r, ok) == UpdateFrom(panels, info, 0)
  {
    r := panels;
    for n := 0 to |TrainTable|
      invariant LineKeys <= r.Keys
      invariant UpdateFrom(r, info, n) == UpdateFrom(panels, info, 0)
    {
      var line := TrainTable[n].line;
      var row, lineOk := UpdateRow(r[line], info[line]);
      r := r[line := row];
      if !lineOk {
        return r, false;
      }
    }
    ok := true;
  }

  /** No line at positions `n` to `m - 1` of the table has more trains info entries than panels. */
  predicate NoOverflowBetween(panels: map<Line, seq<TrainInfo>>, info: map<Line, seq<TrainInfo>>, n: nat, m: nat)
    requires n <= m <= |TrainTable| && LineKeys <= panels.Keys && LineKeys <= info.Keys
  {
    forall j :: n <= j < m ==> !Overflows(panels, info, j)
  }

  /** The update from position `n` on leaves the lines before `n` alone. */
  lemma {:induction false} UpdateFromKeeps(panels: map<Line, seq<TrainInfo>>, info: map<Line, seq<TrainInfo>>, n: nat, k: Line)
    requires n <= |TrainTable| && LineKeys <= panels.Keys && LineKeys <= info.Keys && TrainIndex(k) < n
    ensures UpdateFrom(panels, info, n).panels[k] == panels[k]
    decreases |TrainTable| - n
  {
    if n < |TrainTable| {
      var line := TrainTable[n].line;
      var next := panels[line := Overlay(panels[line], info[line])];
      if |info[line]| <= |panels[line]| {
        UpdateFromKeeps(next, info, n + 1, k);
      }
    }
  }

  /**
   * The update from position `n` on gives a later line its entries, panel
   * `i` taking entry `i`, exactly when no line from `n` up to it overflowed;
   * otherwise the line keeps its panels.
   */
  lemma {:induction false} UpdateFromEffect(panels: map<Line, seq<TrainInfo>>, info: map<Line, seq<TrainInfo>>, n: nat, k: Line)
    requires n <= TrainIndex(k) && LineKeys <= panels.Keys && LineKeys <= info.Keys
    ensures UpdateFrom(panels, info, n).panels[k] ==
              if NoOverflowBetween(panels, info, n, TrainIndex(k)) then Overlay(panels[k], info[k]) else panels[k]
    decreases |TrainTable| - n
  {
    var line := TrainTable[n].line;
    var next := panels[line := Overlay(panels[line], info[line])];
    if k == line {
      if |info[line]| <= |panels[line]| {
        UpdateFromKeeps(next, info, n + 1, k);
      }
    } else {
      assert TrainIndex(k) != n;
      if |info[line]| <= |panels[line]| {
        UpdateFromEffect(next, info, n + 1, k);
        forall j | n + 1 <= j < TrainIndex(k)
          ensures Overflows(next, info, j) == Overflows(panels, info, j)
        {
          TrainIndexOfEntry(j);
        }
        assert NoOverflowBetween(next, info, n + 1, TrainIndex(k)) == NoOverflowBetween(panels, info, n, TrainIndex(k));
      } else {
        assert Overflows(panels, info, n);
      }
    }
  }

  /** The update from position `n` on completes exactly when no line from `n` to the end overflows. */
  lemma {:induction false} UpdateFromComplete(panels: map<Line, seq<TrainInfo>>, info: map<Line, seq<TrainInfo>>, n: nat)
    requires n <= |TrainTable| && LineKeys <= panels.Keys && LineKeys <= info.Keys
    ensures UpdateFrom(panels, info, n).complete <==> NoOverflowBetween(panels, info, n, |TrainTable|)
    decreases |TrainTable| - n
  {
    if n < |TrainTable| {
      var line := TrainTable[n].line;
      var next := panels[line := Overlay(panels[line], info[line])];
      if |info[line]| <= |panels[line]| {
        UpdateFromComplete(next, info, n + 1);
        forall j | n + 1 <= j < |TrainTable|
          ensures Overflows(next, info, j) == Overflows(panels, info, j)
        {
          TrainIndexOfEntry(j);
        }
      } else {
        assert Overflows(panels, info, n);
      }
    }
  }

  /**
   * What `updateTrainsPanels` leaves: a line's panel `i` shows entry `i` of
   * the line's trains info (and keeps what it showed past the last entry)
   * when no earlier line of the table raised `IndexError`; a line after the
   * one that raised it keeps all its panels.
   */
  lemma UpdateShows(panels: map<Line, seq<TrainInfo>>, info: map<Line, seq<TrainInfo>>, k: Line)
    requires LineKeys <= panels.Keys && LineKeys <= info.Keys
    ensures UpdateFrom(panels, info, 0).panels[k] ==
              if NoOverflowBetween(panels, info, 0, TrainIndex(k)) then Overlay(panels[k], info[k]) else panels[k]
  {
    UpdateFromEffect(panels, info, 0, k);
  }

  /** The update completes exactly when no line has more trains info entries than train panels. */
  lemma UpdateCompleteIff(panels: map<Line, seq<TrainInfo>>, info: map<Line, seq<TrainInfo>>)
    requires LineKeys <= panels.Keys && LineKeys <= info.Keys
    ensures UpdateFrom(panels, info, 0).complete <==> forall k :: k in LineKeys ==> |info[k]| <= |panels[k]|
  {
    UpdateFromComplete(panels, info, 0);
    if NoOverflowBetween(panels, info, 0, |TrainTable|) {
      forall k | k in LineKeys
        ensures |info[k]| <= |panels[k]|
      {
        assert !Overflows(panels, info, TrainIndex(k));
      }
    }
  }

  /** The train control frame: its update gate, the labels, the train rows, and the calls and writes it has issued. */
  class TrainFrame {
    /** `gv.TEST_MD`: no data manager, so no data is read and no coil is written. */
    const testMode: bool
    /** `gv.gUpdateRate`: the least time between two updates. */
    const updateRate: int
    var updateLock: bool
    var lastPeriodicTime: int
    var digitalIn: map<string, seq<DigitalLabel>>
    var digitalOut: map<string, seq<DigitalLabel>>
    var trainPwrState: seq<bool>
    /** The slots of each line's row of the train state view. */
    var slots: map<Line, seq<Slot>>
    /** `trainPnlDict`: what each line's train panels show, in order. */
    var trainPanels: map<Line, seq<TrainInfo>>
    /** The calls made on the display manager, oldest first. */
    var mapCalls: seq<MapCall>
    /** The coil writes sent to the train PLC through the data manager, oldest first. */
    var coilWrites: seq<CoilWrite>

    /** Every line has its row and one panel per train. */
    ghost predicate Valid()
      reads this
    {
      slots.Keys == trainPanels.Keys == LineKeys &&
      forall k :: k in trainPanels ==> |trainPanels[k]| == ConfigOf(k).num
    }

    /** `__init__`: labels, train rows, unlocked, all trains powered on, last updated at `now`. */
    constructor (testMode: bool, updateRate: int, now: int)
      ensures Valid()
      ensures this.testMode == testMode && this.updateRate == updateRate
      ensures !updateLock && lastPeriodicTime == now
      ensures digitalIn == InLabelTable() && digitalOut == OutLabelTable()
      ensures forall k :: k in slots ==> forall i :: 0 <= i < |slots[k]| ==> slots[k][i] == SlotOf(ConfigOf(k), i)
      ensures forall k :: k in slots ==> |slots[k]| == SlotsPerLine
      ensures forall k, i :: k in trainPanels && 0 <= i < |trainPanels[k]| ==> trainPanels[k][i] == Blank
      ensures trainPwrState == seq(TrainCoils, _ => true)
      ensures mapCalls == []
      ensures coilWrites == if testMode then [] else PowerOnWrites()
    {
      this.testMode := testMode;
      this.updateRate := updateRate;
      var inLbs, outLbs := InitDigitalLbs();
      digitalIn, digitalOut := inLbs, outLbs;
      var rows, panels := BuildTrainState();
      slots, trainPanels := rows, panels;
      mapCalls, coilWrites := [], [];
      updateLock := false;
      trainPwrState := [];
      new;
      TurnOnAllTrainsPwr();
      lastPeriodicTime := now;
    }

    /** `_initDigitalLbs`: the input and output labels of PLC-06 and PLC-07, built loop by loop. */
    static method InitDigitalLbs() returns (digitalIn: map<string, seq<DigitalLabel>>, digitalOut: map<string, seq<DigitalLabel>>)
      ensures digitalIn == InLabelTable() && digitalOut == OutLabelTable()
    {
      var in6 := AppendLabels([], "weS", WeLine, 0, 4);
      in6 := AppendLabels(in6, "nsS", NsLine, 0, 3);
      in6 := AppendLabels(in6, "ccS", CcLine, 0, 1);
      var out6 := AppendLabels([], "weP", WeLine, 0, 4);
      out6 := AppendLabels(out6, "nsP", NsLine, 0, 3);
      out6 := AppendLabels(out6, "ccP", CcLine, 0, 1);
      var in7 := AppendLabels([], "ccS", CcLine, 2, 4);
      var out7 := AppendLabels([], "ccP", CcLine, 2, 4);
      assert in6 == Plc06In() && out6 == Plc06Out();
      assert in7 == Plc07In() && out7 == Plc07Out();
      digitalIn := map["PLC-06" := in6, "PLC-07" := in7];
      digitalOut := map["PLC-06" := out6, "PLC-07" := out7];
    }

    /** `_buildTrainStateSizer`: one row per line of the table, in order. */
    static method BuildTrainState() returns (slots: map<Line, seq<Slot>>, panels: map<Line, seq<TrainInfo>>)
      ensures slots.Keys == panels.Keys == LineKeys
      ensures forall k :: k in slots ==> |slots[k]| == SlotsPerLine
      ensures forall k :: k in slots ==> forall i :: 0 <= i < |slots[k]| ==> slots[k][i] == SlotOf(ConfigOf(k), i)
      ensures forall k :: k in panels ==> |panels[k]| == ConfigOf(k).num
      ensures forall k, i :: k in panels && 0 <= i < |panels[k]| ==> panels[k][i] == Blank
    {
      TrainTableTiles();
      slots, panels := map[], map[];
      for n := 0 to |TrainTable|
        invariant forall k :: k in slots <==> TrainIndex(k) < n
        invariant panels.Keys == slots.Keys
        invariant forall k :: k in slots ==> |slots[k]| == SlotsPerLine
        invariant forall k :: k in slots ==> forall i :: 0 <= i < |slots[k]| ==> slots[k][i] == SlotOf(ConfigOf(k), i)
        invariant forall k :: k in panels ==> |panels[k]| == ConfigOf(k).num
        invariant forall k, i :: k in panels && 0 <= i < |panels[k]| ==> panels[k][i] == Blank
      {
        var cfg := TrainTable[n];
        var row, trains := BuildRow(cfg);
        slots := slots[cfg.line := row];
        panels := panels[cfg.line := trains];
      }
    }

    /**
     * `turnOnallTrainsPwr`: all ten power states on; with a data manager,
     * one write per train coil, 0 to 9 in order, each switching it on.
     */
    method TurnOnAllTrainsPwr()
      modifies this
      ensures trainPwrState == seq(TrainCoils, _ => true)
      ensures coilWrites == old(coilWrites) + if testMode then [] else PowerOnWrites()
      ensures updateLock == old(updateLock) && lastPeriodicTime == old(lastPeriodicTime)
      ensures digitalIn == old(digitalIn) && digitalOut == old(digitalOut)
      ensures slots == old(slots) && trainPanels == old(trainPanels) && mapCalls == old(mapCalls)
    {
      trainPwrState := seq(TrainCoils, _ => true);
      if !testMode {
        for idx := 0 to TrainCoils
          invariant coilWrites == old(coilWrites) + PowerOnWrites()[..idx]
          invariant trainPwrState == seq(TrainCoils, _ => true)
          invariant updateLock == old(updateLock) && lastPeriodicTime == old(lastPeriodicTime)
          invariant digitalIn == old(digitalIn) && digitalOut == old(digitalOut)
          invariant slots == old(slots) && trainPanels == old(trainPanels) && mapCalls == old(mapCalls)
        {
          coilWrites := coilWrites + [CoilWrite(idx, trainPwrState[idx])];
          assert PowerOnWrites()[..idx + 1] == PowerOnWrites()[..idx] + [CoilWrite(idx, true)];
        }
        assert PowerOnWrites()[..TrainCoils] == PowerOnWrites();
      }
    }

    /**
     * `updateTrainsPanels`: line by line in table order, panel `i` takes
     * entry `i` of the line's trains info; an entry beyond the last panel
     * raises `IndexError`, which stops the update after that line's panels
     * have all been written.
     */
    method UpdateTrainsPanels(trainsInfo: map<Line, seq<TrainInfo>>) returns (ok: bool)
      requires Valid() && LineKeys <= trainsInfo.Keys
      modifies this
      ensures Valid()
      ensures PanelsUpdate(trainPanels, ok) == UpdateFrom(old(trainPanels), trainsInfo, 0)
      ensures updateLock == old(updateLock) && lastPeriodicTime == old(lastPeriodicTime)
      ensures slots == old(slots) && mapCalls == old(mapCalls) && coilWrites == old(coilWrites)
      ensures trainPwrState == old(trainPwrState) && digitalIn == old(digitalIn) && digitalOut == old(digitalOut)
    {
      trainPanels, ok := UpdatePanels(trainPanels, trainsInfo);
    }

    /**
     * `periodic(now)`: runs only when unlocked and at least `updateRate`
     * after the last run, then records `now`; outside test mode it hands each
     * line, in table order, its slice of the train PLC's registers as speeds
     * and of its coils as power; on every run it refreshes the train panels.
     */
    method Periodic(now: int, regs: seq<int>, coils: seq<bool>, trainsInfo: map<Line, seq<TrainInfo>>)
      returns (ran: bool, ok: bool)
      requires Valid() && LineKeys <= trainsInfo.Keys
      modifies this
      ensures Valid()
      ensures ran <==> !old(updateLock) && now - old(lastPeriodicTime) >= updateRate
      ensures lastPeriodicTime == if ran then now else old(lastPeriodicTime)
      ensures mapCalls == old(mapCalls) + if ran && !testMode then DispatchCalls(regs, coils, |TrainTable|) else []
      ensures PanelsUpdate(trainPanels, ok) ==
                if ran then UpdateFrom(old(trainPanels), trainsInfo, 0) else PanelsUpdate(old(trainPanels), true)
      ensures updateLock == old(updateLock) && slots == old(slots) && coilWrites == old(coilWrites)
      ensures trainPwrState == old(trainPwrState) && digitalIn == old(digitalIn) && digitalOut == old(digitalOut)
    {
      if updateLock || now - lastPeriodicTime < updateRate {
        return false, true;
      }
      lastPeriodicTime := now;
      ran := true;
      if !testMode {
        var calls := Dispatch(regs, coils);
        mapCalls := mapCalls + calls;
      }
      ok := UpdateTrainsPanels(trainsInfo);
    }
  }
}
