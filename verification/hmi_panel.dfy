/**
 * The state behind one PLC panel of the SCADA HMI: the sixteen input
 * indicators (the PLC's holding registers), the eight output relays (its
 * coils), the connection label, and the relay buttons whose names the panel
 * builds and parses back.  Everything the panel draws is left to the widget
 * toolkit; only the lists and the label it keeps are modelled.
 */
module HmiPanel {
  import opened Wrappers
  import opened Text
  import opened Ranges

  /** Number of input indicators (holding registers) a panel shows. */
  const RegsNum: nat := 16
  /** Number of output relays (coils) a panel shows. */
  const CoilsNum: nat := 8

  /** The connection labels, keyed by `str(state)`. */
  const Connected: map<string, string> := map["0" := "Unconnected", "1" := "Connected"]

  /** `str(state)` is a key of the label table exactly for the states 0 and 1. */
  lemma ConnectionKey(state: int)
    ensures IntToString(state) in Connected <==> state == 0 || state == 1
  {
    var key := IntToString(state);
    if state >= 0 {
      ParseNatToString(state);
      assert ParseNat("0") == Some(0) && ParseNat("1") == Some(1);
      assert key == "0" ==> state == 0;
      assert key == "1" ==> state == 1;
    } else {
      assert key[0] == '-';
    }
  }

  /** The label `setConnection(state)` shows; `None` is the `KeyError` raised for any other state. */
  function ConnectionLabel(state: int): (r: Option<string>)
    ensures r.Some? <==> state == 0 || state == 1
    ensures state == 0 ==> r == Some("Unconnected")
    ensures state == 1 ==> r == Some("Connected")
  {
    ConnectionKey(state);
    var key := IntToString(state);
    if key in Connected then Some(Connected[key]) else None
  }

  /**
   * `updateInput`/`updateOutput` reject an index of 8 or more and a status
   * other than 0 or 1.  A negative index is not rejected.
   */
  predicate Accepts(idx: int, status: int)
  {
    idx < 8 && (status == 0 || status == 1)
  }

  /**
   * The position a list subscript `idx` denotes in a list of length `len`:
   * a negative subscript counts from the end, and one outside both ranges
   * raises IndexError (None).
   */
  function ListPos(len: nat, idx: int): (r: Option<nat>)
    ensures r.Some? <==> -(len as int) <= idx < len
    ensures r.Some? ==> r.value < len && (r.value == idx || r.value == len + idx)
    ensures 0 <= idx < len ==> r == Some(idx)
  {
    if 0 <= idx < len then Some(idx)
    else if -(len as int) <= idx < 0 then Some(len + idx)
    else None
  }

  /** The output list after the relay toggle of `relayOn`. */
  function ToggleAt(s: seq<int>, i: nat): (r: seq<int>)
    requires i < |s|
    ensures |r| == |s| && r[i] == 1 - s[i]
    ensures forall j :: 0 <= j < |s| && j != i ==> r[j] == s[j]
  {
    s[i := 1 - s[i]]
  }

  /** Every entry is 0 or 1. */
  predicate Binary(s: seq<int>)
  {
    forall i :: 0 <= i < |s| ==> s[i] == 0 || s[i] == 1
  }

  /** Toggling the same relay twice restores the outputs, and toggling keeps 0/1 outputs 0/1. */
  lemma ToggleTwice(s: seq<int>, i: nat)
    requires i < |s|
    ensures ToggleAt(ToggleAt(s, i), i) == s
    ensures Binary(s) ==> Binary(ToggleAt(s, i))
  {
  }

  /** The name of relay button `i` on panel `plcName`. */
  function ButtonName(plcName: string, i: nat): (r: string)
    ensures |r| > |plcName| && r[..|plcName|] == plcName
  {
    plcName + ":" + NatToString(i)
  }

  /**
   * `int(name.split('[')[0][-1])`: the last character before the first `[`,
   * read as a digit; it fails when that part is empty or does not end in a digit.
   */
  function PlcIndexOf(name: string): (r: Option<nat>)
    ensures r.Some? ==> r.value < 10
    ensures r.Some? <==> |BeforeFirst(name, '[')| > 0 && IsDigit(BeforeFirst(name, '[')[|BeforeFirst(name, '[')| - 1])
    ensures forall d :: 0 <= d < 10 ==>
              (r == Some(d) <==> |BeforeFirst(name, '[')| > 0 && BeforeFirst(name, '[')[|BeforeFirst(name, '[')| - 1] == DigitChar(d))
  {
    var head := BeforeFirst(name, '[');
    if |head| == 0 then None
    else
      var d := ParseNat([head[|head| - 1]]);
      if d.Some? then Some(DigitValue(head[|head| - 1])) else None
  }

  /** `int(name.split(':')[-1])`: the digits after the last `:`. */
  function OutIndexOf(name: string): (r: Option<nat>)
    ensures r.Some? <==> ParseNat(AfterLast(name, ':')).Some?
  {
    ParseNat(AfterLast(name, ':'))
  }

  /** The exceptions `relayOn` can raise on a button name. */
  datatype RelayError = BadPlcIndex | BadOutputIndex | OutputOutOfRange

  /** The relay `relayOn` toggles and the map tag it looks up. */
  datatype Relay = Relay(outIdx: nat, tag: string)

  /**
   * What `relayOn` makes of a button name: the PLC digit is read first, then
   * the output index, then the index is checked against the eight outputs;
   * the tag is `str((plcIdx + 1) * 100 + outIdx)`.
   */
  function RelayTarget(name: string): (r: Result<Relay, RelayError>)
    ensures r == Err(BadPlcIndex) <==> PlcIndexOf(name).None?
    ensures r == Err(BadOutputIndex) <==> PlcIndexOf(name).Some? && OutIndexOf(name).None?
    ensures r == Err(OutputOutOfRange) <==>
              PlcIndexOf(name).Some? && OutIndexOf(name).Some? && OutIndexOf(name).value >= CoilsNum
    ensures r.Ok? <==> PlcIndexOf(name).Some? && OutIndexOf(name).Some? && OutIndexOf(name).value < CoilsNum
    ensures r.Ok? ==>
              OutIndexOf(name) == Some(r.value.outIdx) && r.value.outIdx < CoilsNum &&
              ParseNat(r.value.tag) == Some((PlcIndexOf(name).value + 1) * 100 + r.value.outIdx)
  {
    match PlcIndexOf(name)
    case None => Err(BadPlcIndex)
    case Some(plcIdx) =>
      match OutIndexOf(name)
      case None => Err(BadOutputIndex)
      case Some(outIdx) =>
        if outIdx >= CoilsNum then Err(OutputOutOfRange)
        else
          ParseNatToString((plcIdx + 1) * 100 + outIdx);
          Ok(Relay(outIdx, NatToString((plcIdx + 1) * 100 + outIdx)))
  }

  /** The name of relay button `i` parses back to `i`, whatever the panel's name. */
  lemma ButtonNameRoundTrip(plcName: string, i: nat)
    ensures OutIndexOf(ButtonName(plcName, i)) == Some(i)
  {
    AfterLastOfJoin(plcName, ':', NatToString(i));
    assert ButtonName(plcName, i) == plcName + [':'] + NatToString(i);
    ParseNatToString(i);
  }

  /** A one-character string holding a digit reads as that digit. */
  lemma ParseDigit(d: nat)
    requires d < 10
    ensures ParseNat([DigitChar(d)]) == Some(d)
  {
    ParseNatToString(d);
  }

  /**
   * On a panel whose name has no `[`, the PLC digit `relayOn` reads is the
   * last digit of the output index, not a digit of the panel's name.
   */
  lemma PlcIndexOfButton(plcName: string, i: nat)
    requires '[' !in plcName && i < 10
    ensures PlcIndexOf(ButtonName(plcName, i)) == Some(i)
  {
    var name := ButtonName(plcName, i);
    assert NatToString(i) == [DigitChar(i)];
    assert name[|name| - 1] == DigitChar(i);
    assert '[' !in name;
    BeforeFirstNone(name, '[');
    ParseDigit(i);
  }

  /** So relay button `i` of such a panel toggles output `i` and looks up tag `(i + 1) * 100 + i`. */
  lemma RelayTargetOfButton(plcName: string, i: nat)
    requires '[' !in plcName && i < CoilsNum
    ensures RelayTarget(ButtonName(plcName, i)) == Ok(Relay(i, NatToString((i + 1) * 100 + i)))
  {
    PlcIndexOfButton(plcName, i);
    ButtonNameRoundTrip(plcName, i);
  }

  /** One PLC panel: its name and address, its input and output lists and its connection label. */
  class PanelPLC {
    const plcName: string
    const ipAddr: string
    /** `gpioInList`: the state of each input indicator. */
    const gpioIn: array<int>
    /** `gpioOuList`: the state of each output relay. */
    const gpioOu: array<int>
    /** The text of the connection label. */
    var connLabel: string

    ghost predicate Valid()
      reads this
    {
      gpioIn.Length == RegsNum && gpioOu.Length == CoilsNum
    }

    /** A new panel: all inputs and outputs 0, shown as unconnected. */
    constructor (name: string, ipAddr: string)
      ensures Valid() && plcName == name && this.ipAddr == ipAddr
      ensures fresh(gpioIn) && fresh(gpioOu)
      ensures gpioIn[..] == seq(RegsNum, _ => 0) && gpioOu[..] == seq(CoilsNum, _ => 0)
      ensures connLabel == "Unconnected"
    {
      plcName := name;
      this.ipAddr := ipAddr;
      gpioIn := new int[RegsNum](_ => 0);
      gpioOu := new int[CoilsNum](_ => 0);
      connLabel := Connected["0"];
    }

    /** Copies `upd` over the first `min(a.Length, |upd|)` entries of `a`, writing only entries that differ. */
    static method CopyPrefix(a: array<int>, upd: seq<int>)
      modifies a
      ensures a[..] == Overlay(old(a[..]), upd)
    {
      var n := if a.Length < |upd| then a.Length else |upd|;
      for idx := 0 to n
        invariant forall i :: 0 <= i < a.Length ==> a[i] == if i < idx then upd[i] else old(a[i])
      {
        var status := upd[idx];
        if a[idx] != status {
          a[idx] := status;
        }
      }
    }

    /** `updateHoldingRegs`: no data leaves the inputs as they are; otherwise the data is copied over them. */
    method UpdateHoldingRegs(regList: Option<seq<int>>)
      requires Valid()
      modifies gpioIn
      ensures gpioIn[..] == if regList.None? then old(gpioIn[..]) else Overlay(old(gpioIn[..]), regList.value)
    {
      if regList.None? || gpioIn[..] == regList.value {
        if regList.Some? {
          OverlaySelf(gpioIn[..]);
        }
        return;
      }
      CopyPrefix(gpioIn, regList.value);
    }

    /** `updateCoils`: no data leaves the outputs as they are; otherwise the data is copied over them. */
    method UpdateCoils(coilsList: Option<seq<int>>)
      requires Valid()
      modifies gpioOu
      ensures gpioOu[..] == if coilsList.None? then old(gpioOu[..]) else Overlay(old(gpioOu[..]), coilsList.value)
    {
      if coilsList.None? || gpioOu[..] == coilsList.value {
        if coilsList.Some? {
          OverlaySelf(gpioOu[..]);
        }
        return;
      }
      CopyPrefix(gpioOu, coilsList.value);
    }

    /**
     * Writes `status` at the entry the subscript `idx` denotes when the pair
     * is accepted; a rejected pair changes nothing, and an accepted
     * subscript outside the list raises IndexError (`raised`) before any write.
     */
    static method WriteChecked(a: array<int>, idx: int, status: int) returns (raised: bool)
      modifies a
      ensures raised <==> Accepts(idx, status) && ListPos(a.Length, idx).None?
      ensures a[..] == if Accepts(idx, status) && ListPos(a.Length, idx).Some?
                       then old(a[..])[ListPos(a.Length, idx).value := status]
                       else old(a[..])
    {
      if idx >= 8 || !(status == 0 || status == 1) {
        return false;
      }
      var pos := ListPos(a.Length, idx);
      if pos.None? {
        return true;
      }
      raised := false;
      if a[pos.value] != status {
        a[pos.value] := status;
      }
    }

    /**
     * `updateInput`: indicators 0 to 7 (and, through a negative subscript,
     * any of the sixteen) can be set, and only to 0 or 1.
     */
    method UpdateInput(idx: int, status: int) returns (raised: bool)
      requires Valid()
      modifies gpioIn
      ensures raised <==> Accepts(idx, status) && idx < -(RegsNum as int)
      ensures gpioIn[..] == if Accepts(idx, status) && -(RegsNum as int) <= idx
                            then old(gpioIn[..])[if idx < 0 then RegsNum + idx else idx := status]
                            else old(gpioIn[..])
    {
      raised := WriteChecked(gpioIn, idx, status);
    }

    /** `updateOutput`: any of the eight outputs (counted from the end for a negative subscript) can be set, only to 0 or 1. */
    method UpdateOutput(idx: int, status: int) returns (raised: bool)
      requires Valid()
      modifies gpioOu
      ensures raised <==> Accepts(idx, status) && idx < -(CoilsNum as int)
      ensures gpioOu[..] == if Accepts(idx, status) && -(CoilsNum as int) <= idx
                            then old(gpioOu[..])[if idx < 0 then CoilsNum + idx else idx := status]
                            else old(gpioOu[..])
    {
      raised := WriteChecked(gpioOu, idx, status);
    }

    /**
     * `relayOn` on the button named `name`: toggles the output the name
     * designates and returns it with the map tag, or returns the exception
     * the parsing or the indexing raises, leaving the outputs unchanged.
     */
    method RelayOn(name: string) returns (r: Result<Relay, RelayError>)
      requires Valid()
      modifies gpioOu
      ensures r == RelayTarget(name)
      ensures gpioOu[..] == if r.Ok? then ToggleAt(old(gpioOu[..]), r.value.outIdx) else old(gpioOu[..])
    {
      r := RelayTarget(name);
      if r.Ok? {
        var i := r.value.outIdx;
        gpioOu[i] := 1 - gpioOu[i];
        var _ := UpdateOutput(i, gpioOu[i]);
      }
    }

    /** `setConnection`: shows the label of `state`; any state but 0 and 1 is rejected and changes nothing. */
    method SetConnection(state: int) returns (ok: bool)
      modifies this
      ensures ok <==> state == 0 || state == 1
      ensures connLabel == if ok then ConnectionLabel(state).value else old(connLabel)
    {
      var shown := ConnectionLabel(state);
      if shown.None? {
        return false;
      }
      connLabel := shown.value;
      ok := true;
    }
  }
}
