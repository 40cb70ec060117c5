/**
 * Coil writes sent to the train PLC, as an ordered log, and their effect on
 * an abstract coil vector: the power-on writes of the train control HMI and
 * the three writes of the false command injector (attack/falseCmdinjector.py).
 */
module CoilWrites {
  import opened Wrappers

  /** One `setPlcCoilsData(plc, idx, value)` / `setCoilsBit(idx, value)` request. */
  datatype CoilWrite = CoilWrite(idx: nat, value: bool)

  /** Coil index of the west-east line's first train (`train-we0`). */
  const WeTrain0Coil: nat := 0
  /** Coil index of the west-east line's second train (`train-we1`). */
  const WeTrain1Coil: nat := 1

  /** The coils after the writes `ws`, applied first to last; a coil no write touches keeps its value. */
  function Apply(coils: map<nat, bool>, ws: seq<CoilWrite>): map<nat, bool>
    decreases |ws|
  {
    if |ws| == 0 then coils else Apply(coils[ws[0].idx := ws[0].value], ws[1..])
  }

  /** The value of the last write to coil `k` in `ws`, if any. */
  function LastWrite(ws: seq<CoilWrite>, k: nat): (r: Option<bool>)
    ensures r.Some? <==> exists i :: 0 <= i < |ws| && ws[i].idx == k
  {
    if |ws| == 0 then None
    else if ws[|ws| - 1].idx == k then Some(ws[|ws| - 1].value)
    else
      var r := LastWrite(ws[..|ws| - 1], k);
      assert forall i :: 0 <= i < |ws| - 1 ==> ws[..|ws| - 1][i] == ws[i];
      r
  }

  /** Looking from the end past the first write: a later write to `k` wins over the first one. */
  lemma {:induction false} LastWriteCons(ws: seq<CoilWrite>, k: nat)
    requires |ws| > 0
    ensures LastWrite(ws, k) ==
              if LastWrite(ws[1..], k).Some? then LastWrite(ws[1..], k)
              else if ws[0].idx == k then Some(ws[0].value) else None
    decreases |ws|
  {
    if |ws| > 1 && ws[|ws| - 1].idx != k {
      LastWriteCons(ws[..|ws| - 1], k);
      assert ws[..|ws| - 1][1..] == ws[1..][..|ws[1..]| - 1];
    }
  }

  /** Each coil ends with the value of the last write to it, or keeps its old value when none touches it. */
  lemma {:induction false} ApplyLastWrite(coils: map<nat, bool>, ws: seq<CoilWrite>, k: nat)
    ensures k in Apply(coils, ws) <==> k in coils || LastWrite(ws, k).Some?
    ensures k in Apply(coils, ws) ==>
              Apply(coils, ws)[k] == if LastWrite(ws, k).Some? then LastWrite(ws, k).value else coils[k]
    decreases |ws|
  {
    if |ws| > 0 {
      ApplyLastWrite(coils[ws[0].idx := ws[0].value], ws[1..], k);
      LastWriteCons(ws, k);
    }
  }

  /** The writes of `turnOnallTrainsPwr`: coils 0 to 9, in increasing order, each set to true. */
  function PowerOnWrites(): (ws: seq<CoilWrite>)
  {
    seq(10, i requires 0 <= i < 10 => CoilWrite(i, true))
  }

  /** After the power-on writes, the ten train coils are on and every other coil is as it was. */
  lemma PowerOnEffect(coils: map<nat, bool>, k: nat)
    ensures k < 10 ==> k in Apply(coils, PowerOnWrites()) && Apply(coils, PowerOnWrites())[k]
    ensures 10 <= k ==> (k in Apply(coils, PowerOnWrites()) <==> k in coils)
    ensures 10 <= k && k in coils ==> Apply(coils, PowerOnWrites())[k] == coils[k]
  {
    var ws := PowerOnWrites();
    ApplyLastWrite(coils, ws, k);
    if k < 10 {
      LastWriteAt(ws, k);
    } else if LastWrite(ws, k).Some? {
      var i :| 0 <= i < |ws| && ws[i].idx == k;
    }
  }

  /** When the last write to `k` is at position `i`, it decides the coil. */
  lemma {:induction false} LastWriteAt(ws: seq<CoilWrite>, i: nat)
    requires i < |ws| && forall j :: i < j < |ws| ==> ws[j].idx != ws[i].idx
    ensures LastWrite(ws, ws[i].idx) == Some(ws[i].value)
    decreases |ws|
  {
    if i < |ws| - 1 {
      var front := ws[..|ws| - 1];
      assert front[i] == ws[i];
      LastWriteAt(front, i);
    }
  }

  /** The three writes of the false command injector, in the order it sends them. */
  function InjectorWrites(): seq<CoilWrite>
  {
    [CoilWrite(10, false), CoilWrite(WeTrain1Coil, false), CoilWrite(WeTrain0Coil, true)]
  }

  /**
   * Replaying the injector after the HMI powered the trains on leaves
   * `train-we0` powered, stops `train-we1`, clears coil 10, and keeps the
   * other trains powered.
   */
  lemma InjectionAfterPowerOn(coils: map<nat, bool>)
    ensures var after := Apply(Apply(coils, PowerOnWrites()), InjectorWrites());
            0 in after && 1 in after && 10 in after &&
            after[WeTrain0Coil] && !after[WeTrain1Coil] && !after[10] &&
            forall k :: 2 <= k < 10 ==> k in after && after[k]
  {
    var on := Apply(coils, PowerOnWrites());
    var inj := InjectorWrites();
    var after := Apply(on, inj);
    LastWriteAt(inj, 0);
    LastWriteAt(inj, 1);
    LastWriteAt(inj, 2);
    ApplyLastWrite(on, inj, 0);
    ApplyLastWrite(on, inj, 1);
    ApplyLastWrite(on, inj, 10);
    forall k | 2 <= k < 10
      ensures k in after && after[k]
    {
      PowerOnEffect(coils, k);
      ApplyLastWrite(on, inj, k);
      assert LastWrite(inj, k).None?;
    }
  }
}
