/**
 * The track-topology layer of the SCADA HMI (src/scadaEmuUI/hmiMgr.py):
 * per-line sensor sets, signals with the sensor positions that should
 * switch them, and the map manager that builds the three lines and pushes
 * controller state into them.
 */
module HmiMgr {
  import opened Wrappers
  import opened Tracks

  /** A map position; a tuple of ints in the source (usually `(x, y)`; `cc-2` carries three). */
  type Pos = seq<int>

  function ZeroStates(n: nat): (r: seq<int>)
    ensures |r| == n && forall i :: 0 <= i < n ==> r[i] == 0
  {
    seq(n, _ => 0)
  }

  predicate AllZero(states: seq<int>)
  {
    forall i :: 0 <= i < |states| ==> states[i] == 0
  }

  /** The detection state of all sensors of one track line. */
  class AgentSensors {
    const id: string
    var posList: seq<Pos>
    var count: nat
    var states: seq<int>

    /** The three parallel views agree on the number of sensors. */
    ghost predicate Valid()
      reads this
    {
      |posList| == count && |states| == count
    }

    /** Starts from the given positions (none when `posList` is absent), every sensor at 0. */
    constructor (id: string, posList: Option<seq<Pos>>)
      ensures Valid()
      ensures this.id == id
      ensures this.posList == (if posList.Some? then posList.value else [])
      ensures states == ZeroStates(count)
    {
      this.id := id;
      var ps := if posList.Some? then posList.value else [];
      this.count := |ps|;
      this.posList := ps;
      this.states := ZeroStates(|ps|);
    }

    /** Appends one sensor at `pos`, initially undetected. */
    method AddOneSensor(pos: Pos)
      requires Valid()
      modifies this
      ensures Valid()
      ensures posList == old(posList) + [pos]
      ensures states == old(states) + [0]
      ensures count == old(count) + 1
    {
      posList := posList + [pos];
      count := count + 1;
      states := states + [0];
    }

    /**
     * Sets sensor `idx` to `state` when `idx` is below the count; a negative
     * index counts from the end, as a list subscript does, and one below
     * minus the count raises IndexError (`raised`); a larger index does nothing.
     */
    method UpdateSensorState(idx: int, state: int) returns (raised: bool)
      requires Valid()
      modifies this
      ensures Valid()
      ensures posList == old(posList) && count == old(count)
      ensures raised <==> idx < -(count as int)
      ensures states == if -(count as int) <= idx < count
                        then old(states)[(if idx < 0 then count + idx else idx) := state]
                        else old(states)
      ensures forall j :: 0 <= j < count && j != idx && j != count + idx ==> states[j] == old(states)[j]
    {
      raised := false;
      if idx < count {
        if idx < -(count as int) {
          return true;
        }
        var pos := if idx < 0 then count + idx else idx;
        states := states[pos := state];
      }
    }

    /** Replaces all states at once, but only with a list of exactly the sensor count. */
    method UpdateSensorsState(stateList: seq<int>)
      requires Valid()
      modifies this
      ensures Valid()
      ensures posList == old(posList) && count == old(count)
      ensures states == if |stateList| == old(count) then stateList else old(states)
    {
      if |stateList| == count {
        states := stateList;
      }
    }

    function GetID(): string
    {
      id
    }

    function GetSensorsCount(): (n: nat)
      requires Valid()
      reads this
      ensures n == |posList| && n == |states|
    {
      count
    }

    function GetSensorPos(): (r: seq<Pos>)
      requires Valid()
      reads this
      ensures |r| == count
    {
      posList
    }

    function GetSensorsState(): (r: seq<int>)
      requires Valid()
      reads this
      ensures |r| == count
    {
      states
    }
  }

  /** One track signal: its on/off state and the sensor positions expected to switch it. */
  class AgentSignal {
    const id: string
    const pos: Pos
    var state: bool
    var triggerOnPosList: seq<Pos>
    var triggerOffPosList: seq<Pos>

    constructor (id: string, pos: Pos)
      ensures this.id == id && this.pos == pos
      ensures !state && triggerOnPosList == [] && triggerOffPosList == []
    {
      this.id := id;
      this.pos := pos;
      this.state := false;
      this.triggerOnPosList := [];
      this.triggerOffPosList := [];
    }

    method AddTGonPos(p: Pos)
      modifies this
      ensures triggerOnPosList == old(triggerOnPosList) + [p]
      ensures triggerOffPosList == old(triggerOffPosList) && state == old(state)
    {
      triggerOnPosList := triggerOnPosList + [p];
    }

    method AddTFoffPos(p: Pos)
      modifies this
      ensures triggerOffPosList == old(triggerOffPosList) + [p]
      ensures triggerOnPosList == old(triggerOnPosList) && state == old(state)
    {
      triggerOffPosList := triggerOffPosList + [p];
    }

    function GetID(): string
    {
      id
    }

    function GetState(): bool
      reads this
    {
      state
    }

    function GetPos(): Pos
    {
      pos
    }

    function GetTGonPos(): seq<Pos>
      reads this
    {
      triggerOnPosList
    }

    function GetTGoffPos(): seq<Pos>
      reads this
    {
      triggerOffPosList
    }

    method SetState(s: bool)
      modifies this
      ensures state == s
      ensures triggerOnPosList == old(triggerOnPosList) && triggerOffPosList == old(triggerOffPosList)
    {
      state := s;
    }
  }

  /** The sensor id the map manager gives each line. */
  function SensorsId(line: Line): string
  {
    match line
    case WeLine => "we"
    case CcLine => "cc"
    case NsLine => "ns"
  }

  /** Sensor positions of each line: 17, 14 and 8 sensors on rows y = 100, 260 and 420. */
  function SensorPositions(line: Line): seq<Pos>
  {
    match line
    case WeLine => seq(17, i => [80 + 100 * i, 100])
    case CcLine => seq(14, i => [80 + 120 * i, 260])
    case NsLine => seq(8, i => [80 + 210 * i, 420])
  }

  /** One row of a signal configuration table. */
  datatype SignalConfig = SignalConfig(id: string, pos: Pos, trigger: Line, onIdx: seq<nat>, offIdx: seq<nat>)

  /** The signal configuration tables, in table order; triggers name sensors of another line. */
  function SignalTable(line: Line): seq<SignalConfig>
  {
    match line
    case WeLine => WeSignalTable()
    case CcLine => CcSignalTable()
    case NsLine => NsSignalTable()
  }

  function WeSignalTable(): seq<SignalConfig>
  {
      [ SignalConfig("we-0", [80 + 100 * 1 + 50, 100], CcLine, [12], [13]),
        SignalConfig("we-2", [80 + 100 * 3 + 50, 100], CcLine, [10], [11]),
        SignalConfig("we-4", [80 + 100 * 5 + 50, 100], CcLine, [8], [9]),
        SignalConfig("we-6", [80 + 100 * 7 + 50, 100], CcLine, [6], [7]),
        SignalConfig("we-7", [80 + 100 * 9 + 50, 100], CcLine, [6], [7]),
        SignalConfig("we-5", [80 + 100 * 11 + 50, 100], CcLine, [8], [9]),
        SignalConfig("we-3", [80 + 100 * 13 + 50, 100], CcLine, [10], [11]),
        SignalConfig("we-1", [80 + 100 * 15 + 50, 100], CcLine, [12], [13]) ]
  }

  function CcSignalTable(): seq<SignalConfig>
  {
      [ SignalConfig("cc-0", [80 + 120 * 0 + 60, 260], NsLine, [0, 6], [1, 7]),
        SignalConfig("cc-1", [80 + 120 * 2 + 60, 260], NsLine, [4], [5]),
        SignalConfig("cc-2", [80 + 120 * 4 + 60, 260, 260], NsLine, [2], [3]),
        SignalConfig("cc-3", [80 + 120 * 6 + 60, 260], WeLine, [7, 9], [8, 10]),
        SignalConfig("cc-4", [80 + 120 * 8 + 60, 260], WeLine, [5, 11], [6, 12]),
        SignalConfig("cc-5", [80 + 120 * 10 + 60, 260], WeLine, [3, 13], [4, 14]),
        SignalConfig("cc-6", [80 + 120 * 12 + 60, 260], WeLine, [1, 15], [2, 16]) ]
  }

  function NsSignalTable(): seq<SignalConfig>
  {
      [ SignalConfig("ns-0", [80 + 210 * 0 + 100, 420], CcLine, [0], [1]),
        SignalConfig("ns-1", [80 + 210 * 2 + 100, 420], CcLine, [0], [1]),
        SignalConfig("ns-2", [80 + 210 * 4 + 100, 420], CcLine, [2], [3]),
        SignalConfig("ns-3", [80 + 210 * 6 + 100, 420], CcLine, [4], [5]) ]
  }

  /** The row each line is drawn on: `y` starts at 100 and grows by 160 per line. */
  function RowY(line: Line): int
  {
    match line
    case WeLine => 100
    case CcLine => 260
    case NsLine => 420
  }

  /** Each line's sensors, 17, 14 and 8 of them, lie on the line's row, left to right. */
  lemma SensorLayout(line: Line)
    ensures |SensorPositions(line)| == match line case WeLine => 17 case CcLine => 14 case NsLine => 8
    ensures forall i :: 0 <= i < |SensorPositions(line)| ==>
              |SensorPositions(line)[i]| == 2 && SensorPositions(line)[i][1] == RowY(line)
    ensures forall i, j :: 0 <= i < j < |SensorPositions(line)| ==> SensorPositions(line)[i][0] < SensorPositions(line)[j][0]
  {
  }

  /**
   * Every signal row names at least one trigger-on sensor, pairs each with
   * the next sensor of the trigger line as its trigger-off sensor, and is
   * drawn on its own line's row (`cc-2` carries a third coordinate); no id
   * repeats within a table.
   */
  lemma SignalTableLayout(line: Line)
    ensures forall i :: 0 <= i < |SignalTable(line)| ==>
              0 < |SignalTable(line)[i].onIdx| == |SignalTable(line)[i].offIdx|
    ensures forall i, j :: 0 <= i < |SignalTable(line)| && 0 <= j < |SignalTable(line)[i].onIdx| ==>
              SignalTable(line)[i].offIdx[j] == SignalTable(line)[i].onIdx[j] + 1
    ensures forall i :: 0 <= i < |SignalTable(line)| ==>
              2 <= |SignalTable(line)[i].pos| && SignalTable(line)[i].pos[1] == RowY(line)
    ensures forall i, j :: 0 <= i < j < |SignalTable(line)| ==> SignalTable(line)[i].id != SignalTable(line)[j].id
  {
  }

  /** Every index of `idxs` names a sensor of line `trigger`. */
  predicate IndicesInRange(trigger: Line, idxs: seq<nat>)
  {
    forall j :: 0 <= j < |idxs| ==> idxs[j] < |SensorPositions(trigger)|
  }

  /** A row can be resolved: it names a known line, and all its indices are in that line's range. */
  predicate Resolvable(cfg: SignalConfig)
  {
    IndicesInRange(cfg.trigger, cfg.onIdx) && IndicesInRange(cfg.trigger, cfg.offIdx)
  }

  /** Every row of `table` resolves against its trigger line. */
  predicate TableResolvable(table: seq<SignalConfig>)
  {
    forall i :: 0 <= i < |table| ==> Resolvable(table[i])
  }

  /** `got` lists, in order, the positions of the sensors of line `trigger` at `idxs`. */
  predicate Resolves(got: seq<Pos>, trigger: Line, idxs: seq<nat>)
  {
    |got| == |idxs| &&
    forall j :: 0 <= j < |idxs| ==> idxs[j] < |SensorPositions(trigger)| && got[j] == SensorPositions(trigger)[idxs[j]]
  }

  /** `sig` was built from row `cfg`: same id and position, triggers resolved in table order. */
  ghost predicate Built(sig: AgentSignal, cfg: SignalConfig)
    reads sig
  {
    sig.id == cfg.id && sig.pos == cfg.pos &&
    Resolves(sig.triggerOnPosList, cfg.trigger, cfg.onIdx) &&
    Resolves(sig.triggerOffPosList, cfg.trigger, cfg.offIdx)
  }

  /** `sigs` holds one freshly built signal per row of `table`, in table order, all off. */
  ghost predicate LineBuilt(sigs: seq<AgentSignal>, table: seq<SignalConfig>)
    reads sigs
  {
    |sigs| == |table| &&
    forall i :: 0 <= i < |sigs| ==> Built(sigs[i], table[i]) && !sigs[i].state
  }

  /** No signal object appears twice, within a line or across lines. */
  predicate SignalsDistinct(m: map<Line, seq<AgentSignal>>)
  {
    forall k, i, k', j ::
      k in m && k' in m && 0 <= i < |m[k]| && 0 <= j < |m[k']| && (k != k' || i != j) ==> m[k][i] != m[k'][j]
  }

  predicate Distinct(s: seq<AgentSignal>)
  {
    forall i, j :: 0 <= i < j < |s| ==> s[i] != s[j]
  }

  predicate Disjoint(s: seq<AgentSignal>, t: seq<AgentSignal>)
  {
    forall i, j :: 0 <= i < |s| && 0 <= j < |t| ==> s[i] != t[j]
  }

  lemma ThreeLinesDistinct(we: seq<AgentSignal>, cc: seq<AgentSignal>, ns: seq<AgentSignal>)
    requires Distinct(we) && Distinct(cc) && Distinct(ns)
    requires Disjoint(we, cc) && Disjoint(we, ns) && Disjoint(cc, ns)
    ensures SignalsDistinct(map[WeLine := we, CcLine := cc, NsLine := ns])
  {
    var m := map[WeLine := we, CcLine := cc, NsLine := ns];
    forall k, i, k', j | k in m && k' in m && 0 <= i < |m[k]| && 0 <= j < |m[k']| && (k != k' || i != j)
      ensures m[k][i] != m[k'][j]
    {
      if k == k' {
        assert i < j || j < i;
      }
    }
  }

  /** A line's sensor states after `setSensors(stateList)`: replaced only by a list of the same length. */
  function PushSensors(states: seq<int>, stateList: seq<int>): (r: seq<int>)
    ensures |r| == |states|
    ensures r == stateList || r == states
    ensures r == stateList <==> |stateList| == |states| || stateList == states
  {
    if |stateList| == |states| then stateList else states
  }

  /**
   * A line's signal states after `setSingals(stateList)`: a list no longer
   * than the line overwrites the states it covers; a longer list changes nothing.
   */
  function PushSignals(states: seq<bool>, stateList: seq<bool>): (r: seq<bool>)
    ensures |r| == |states|
    ensures forall i :: 0 <= i < |r| ==>
              r[i] == if |stateList| <= |states| && i < |stateList| then stateList[i] else states[i]
  {
    if |stateList| <= |states| then stateList + states[|stateList|..] else states
  }

  /** The states of a sequence of signals, in order. */
  ghost function StatesOf(sigs: seq<AgentSignal>): (r: seq<bool>)
    reads set x | x in sigs
    ensures |r| == |sigs| && forall i :: 0 <= i < |sigs| ==> r[i] == sigs[i].state
  {
    seq(|sigs|, i requires 0 <= i < |sigs| reads set x | x in sigs => sigs[i].state)
  }

  /** The trigger positions (on, off) of a sequence of signals, in order. */
  ghost function TriggersOf(sigs: seq<AgentSignal>): (r: seq<(seq<Pos>, seq<Pos>)>)
    reads set x | x in sigs
    ensures |r| == |sigs|
    ensures forall i :: 0 <= i < |sigs| ==> r[i] == (sigs[i].triggerOnPosList, sigs[i].triggerOffPosList)
  {
    seq(|sigs|, i requires 0 <= i < |sigs| reads set x | x in sigs => (sigs[i].triggerOnPosList, sigs[i].triggerOffPosList))
  }

  /** The result of `getSensors`: one line's sensors, or the whole table when the id is unknown. */
  datatype SensorsLookup = OneLine(line: AgentSensors) | AllLines(lines: map<Line, AgentSensors>)

  /** The result of `getSignals`: one line's signals, or the whole table when the id is unknown. */
  datatype SignalsLookup = OneLineSignals(signals: seq<AgentSignal>) | AllLineSignals(all: map<Line, seq<AgentSignal>>)

  /** Manager of the sensors and signals of the three lines shown on the HMI map. */
  class MapMgr {
    var sensors: map<Line, AgentSensors>
    var signals: map<Line, seq<AgentSignal>>

    /** Every sensor set is well formed, and no sensor set or signal object is shared. */
    ghost predicate Valid()
      reads this, sensors.Values
    {
      (forall k :: k in sensors ==> sensors[k].Valid()) &&
      (forall k, k' :: k in sensors && k' in sensors && k != k' ==> sensors[k] != sensors[k']) &&
      SignalsDistinct(signals)
    }

    /** The three lines hold the sensor sets `_initSensors` builds, with their ids and positions. */
    ghost predicate SensorsBuilt()
      reads this, sensors.Values
    {
      sensors.Keys == LineKeys &&
      forall k :: k in LineKeys ==> sensors[k].id == SensorsId(k) && sensors[k].posList == SensorPositions(k)
    }

    /** Builds the sensors of all three lines, then their signals. */
    constructor ()
      ensures Valid()
      ensures forall k :: k in sensors ==> fresh(sensors[k])
      ensures SensorsBuilt() && signals.Keys == LineKeys
      ensures forall k :: k in LineKeys ==> AllZero(sensors[k].states)
      ensures forall k :: k in signals ==> LineBuilt(signals[k], SignalTable(k))
      ensures forall k, i :: k in signals && 0 <= i < |signals[k]| ==> fresh(signals[k][i])
    {
      sensors := map[];
      signals := map[];
      new;
      InitSensors();
      InitSignals();
    }

    /** Builds one line's sensor set by appending each of its positions in turn. */
    static method BuildLine(line: Line) returns (s: AgentSensors)
      ensures fresh(s) && s.Valid()
      ensures s.id == SensorsId(line) && s.posList == SensorPositions(line) && AllZero(s.states)
    {
      var positions := SensorPositions(line);
      s := new AgentSensors(SensorsId(line), None);
      for i := 0 to |positions|
        invariant s.Valid() && s.id == SensorsId(line)
        invariant s.posList == positions[..i] && AllZero(s.states)
      {
        s.AddOneSensor(positions[i]);
        assert positions[..i + 1] == positions[..i] + [positions[i]];
      }
    }

    /** `_initSensors`: 17, 14 and 8 sensors on the three lines, all undetected. */
    method InitSensors()
      requires Valid() && sensors == map[] && signals == map[]
      modifies this
      ensures Valid() && forall k :: k in sensors ==> fresh(sensors[k])
      ensures signals == old(signals) && SensorsBuilt()
      ensures forall k :: k in sensors ==> AllZero(sensors[k].states)
    {
      var we := BuildLine(WeLine);
      var cc := BuildLine(CcLine);
      var ns := BuildLine(NsLine);
      sensors := map[WeLine := we, CcLine := cc, NsLine := ns];
    }

    /** Builds one signal from a configuration row, resolving its trigger indices on `sPosList`. */
    static method BuildSignal(cfg: SignalConfig, sPosList: seq<Pos>) returns (sig: AgentSignal)
      requires Resolvable(cfg) && sPosList == SensorPositions(cfg.trigger)
      ensures fresh(sig) && Built(sig, cfg) && !sig.state
    {
      sig := new AgentSignal(cfg.id, cfg.pos);
      for m := 0 to |cfg.onIdx|
        invariant sig.id == cfg.id && sig.pos == cfg.pos && !sig.state && sig.triggerOffPosList == []
        invariant |sig.triggerOnPosList| == m
        invariant forall j :: 0 <= j < m ==> sig.triggerOnPosList[j] == sPosList[cfg.onIdx[j]]
      {
        sig.AddTGonPos(sPosList[cfg.onIdx[m]]);
      }
      for m := 0 to |cfg.offIdx|
        invariant sig.id == cfg.id && sig.pos == cfg.pos && !sig.state
        invariant Resolves(sig.triggerOnPosList, cfg.trigger, cfg.onIdx)
        invariant |sig.triggerOffPosList| == m
        invariant forall j :: 0 <= j < m ==> sig.triggerOffPosList[j] == sPosList[cfg.offIdx[j]]
      {
        sig.AddTFoffPos(sPosList[cfg.offIdx[m]]);
      }
    }

    /** Builds the signals of one table, each with trigger positions looked up through `GetSensors`. */
    method BuildSignals(table: seq<SignalConfig>) returns (sigs: seq<AgentSignal>)
      requires Valid() && SensorsBuilt()
      requires TableResolvable(table)
      ensures LineBuilt(sigs, table)
      ensures forall i :: 0 <= i < |sigs| ==> fresh(sigs[i])
      ensures Distinct(sigs)
    {
      sigs := [];
      for n := 0 to |table|
        invariant |sigs| == n
        invariant forall i :: 0 <= i < n ==> fresh(sigs[i]) && Built(sigs[i], table[i]) && !sigs[i].state
        invariant Distinct(sigs)
      {
        var cfg := table[n];
        var lookup := GetSensors(LineName(cfg.trigger));
        var sPosList := lookup.line.GetSensorPos();
        var sig := BuildSignal(cfg, sPosList);
        sigs := sigs + [sig];
      }
    }

    /** Builds the signals of the three lines, each from its own configuration table. */
    method BuildAllSignals() returns (we: seq<AgentSignal>, cc: seq<AgentSignal>, ns: seq<AgentSignal>)
      requires Valid() && SensorsBuilt()
      ensures LineBuilt(we, SignalTable(WeLine)) && LineBuilt(cc, SignalTable(CcLine)) && LineBuilt(ns, SignalTable(NsLine))
      ensures forall i :: 0 <= i < |we| ==> fresh(we[i])
      ensures forall i :: 0 <= i < |cc| ==> fresh(cc[i])
      ensures forall i :: 0 <= i < |ns| ==> fresh(ns[i])
      ensures SignalsDistinct(map[WeLine := we, CcLine := cc, NsLine := ns])
    {
      assert TableResolvable(SignalTable(WeLine)) && TableResolvable(SignalTable(CcLine)) &&
             TableResolvable(SignalTable(NsLine)) by {
        SignalTablesResolvable();
      }
      we := BuildSignals(SignalTable(WeLine));
      cc := BuildSignals(SignalTable(CcLine));
      assert Disjoint(we, cc);
      ns := BuildSignals(SignalTable(NsLine));
      assert Disjoint(we, ns) && Disjoint(cc, ns);
      ThreeLinesDistinct(we, cc, ns);
    }

    /** `_initSignals`: builds the signals of the three lines from their configuration tables. */
    method InitSignals()
      requires Valid() && SensorsBuilt() && signals == map[]
      modifies this
      ensures Valid()
      ensures sensors == old(sensors) && signals.Keys == LineKeys
      ensures forall k :: k in signals ==> LineBuilt(signals[k], SignalTable(k))
      ensures forall k, i :: k in signals && 0 <= i < |signals[k]| ==> fresh(signals[k][i])
    {
      var we, cc, ns := BuildAllSignals();
      signals := map[WeLine := we, CcLine := cc, NsLine := ns];
      assert LineBuilt(signals[WeLine], SignalTable(WeLine));
      assert LineBuilt(signals[CcLine], SignalTable(CcLine));
      assert LineBuilt(signals[NsLine], SignalTable(NsLine));
    }

    /** `getSensors`: the named line's sensors when `trackID` is a non-empty known key, else the whole table. */
    function GetSensors(trackID: string): (r: SensorsLookup)
      reads this
      ensures r.OneLine? <==> LineOf(trackID).Some? && LineOf(trackID).value in sensors
      ensures r.OneLine? ==> r.line == sensors[LineOf(trackID).value]
      ensures r.AllLines? ==> r.lines == sensors
    {
      var l := LineOf(trackID);
      if trackID != "" && l.Some? && l.value in sensors then OneLine(sensors[l.value]) else AllLines(sensors)
    }

    /** `getSignals`: the named line's signals when `trackID` is a non-empty known key, else the whole table. */
    function GetSignals(trackID: string): (r: SignalsLookup)
      reads this
      ensures r.OneLineSignals? <==> LineOf(trackID).Some? && LineOf(trackID).value in signals
      ensures r.OneLineSignals? ==> r.signals == signals[LineOf(trackID).value]
      ensures r.AllLineSignals? ==> r.all == signals
    {
      var l := LineOf(trackID);
      if trackID != "" && l.Some? && l.value in signals then OneLineSignals(signals[l.value]) else AllLineSignals(signals)
    }

    /** Every signal object of every line. */
    ghost function SignalObjects(): set<AgentSignal>
      reads this
    {
      set k, i | k in signals && 0 <= i < |signals[k]| :: signals[k][i]
    }

    /** `setSensors`: pushes a state list into one line's sensors; the other lines keep theirs. */
    method SetSensors(trackID: Line, stateList: seq<int>)
      requires Valid() && trackID in sensors
      modifies sensors[trackID]
      ensures Valid()
      ensures sensors == old(sensors) && signals == old(signals)
      ensures forall k :: k in sensors ==> sensors[k].posList == old(sensors[k].posList)
      ensures forall k :: k in sensors ==>
                sensors[k].states ==
                  if k == trackID then PushSensors(old(sensors[k].states), stateList) else old(sensors[k].states)
      ensures forall k :: k in signals ==> StatesOf(signals[k]) == old(StatesOf(signals[k]))
      ensures forall k :: k in signals ==> TriggersOf(signals[k]) == old(TriggersOf(signals[k]))
    {
      sensors[trackID].UpdateSensorsState(stateList);
    }

    /** Sets signal `i` of `line` to `stateList[i]` for each `i` the list covers, when it is no longer than the line. */
    static method PushInto(line: seq<AgentSignal>, stateList: seq<bool>)
      requires Distinct(line)
      modifies set i | 0 <= i < |line| :: line[i]
      ensures forall i :: 0 <= i < |line| ==>
                line[i].state == if |stateList| <= |line| && i < |stateList| then stateList[i] else old(line[i].state)
      ensures forall i :: 0 <= i < |line| ==>
                line[i].triggerOnPosList == old(line[i].triggerOnPosList) &&
                line[i].triggerOffPosList == old(line[i].triggerOffPosList)
    {
      if |stateList| <= |line| {
        for i := 0 to |stateList|
          invariant forall j :: 0 <= j < i ==> line[j].state == stateList[j]
          invariant forall j :: i <= j < |line| ==> line[j].state == old(line[j].state)
          invariant forall j :: 0 <= j < |line| ==>
                      line[j].triggerOnPosList == old(line[j].triggerOnPosList) &&
                      line[j].triggerOffPosList == old(line[j].triggerOffPosList)
        {
          line[i].SetState(stateList[i]);
        }
      }
    }

    /** `setSingals`: pushes a state list into one line's signals; the other lines keep theirs. */
    method SetSingals(trackID: Line, stateList: seq<bool>)
      requires Valid() && trackID in signals
      modifies set i | 0 <= i < |signals[trackID]| :: signals[trackID][i]
      ensures Valid()
      ensures sensors == old(sensors) && signals == old(signals)
      ensures forall k :: k in signals ==>
                StatesOf(signals[k]) ==
                  if k == trackID then PushSignals(old(StatesOf(signals[k])), stateList) else old(StatesOf(signals[k]))
      ensures forall k :: k in signals ==> TriggersOf(signals[k]) == old(TriggersOf(signals[k]))
      ensures forall k :: k in sensors ==> sensors[k].states == old(sensors[k].states)
      ensures forall k :: k in sensors ==> sensors[k].posList == old(sensors[k].posList)
    {
      var line := signals[trackID];
      PushInto(line, stateList);
      forall k | k in signals
        ensures StatesOf(signals[k]) ==
                  if k == trackID then PushSignals(old(StatesOf(signals[k])), stateList) else old(StatesOf(signals[k]))
      {
        if k != trackID {
          forall i | 0 <= i < |signals[k]|
            ensures signals[k][i].state == old(signals[k][i].state)
          {
            assert forall j :: 0 <= j < |line| ==> line[j] != signals[k][i];
          }
        }
      }
    }
  }

  /**
   * Every signal row of every line names another known line, and each of its
   * trigger indices is below that line's sensor count; the lines carry 8, 7
   * and 4 signals.
   */
  lemma SignalTablesResolvable()
    ensures |SignalTable(WeLine)| == 8 && |SignalTable(CcLine)| == 7 && |SignalTable(NsLine)| == 4
    ensures forall k: Line, i :: 0 <= i < |SignalTable(k)| ==>
              Resolvable(SignalTable(k)[i]) && SignalTable(k)[i].trigger != k
  {
    assert |SensorPositions(WeLine)| == 17;
    assert |SensorPositions(CcLine)| == 14;
    assert |SensorPositions(NsLine)| == 8;
    forall k: Line, i | 0 <= i < |SignalTable(k)|
      ensures Resolvable(SignalTable(k)[i]) && SignalTable(k)[i].trigger != k
    {
      match k
      case WeLine => assert SignalTable(k) == WeSignalTable();
      case CcLine => assert SignalTable(k) == CcSignalTable();
      case NsLine => assert SignalTable(k) == NsSignalTable();
    }
  }
}
