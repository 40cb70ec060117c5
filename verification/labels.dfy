/**
 * The digital I/O labels both HMIs attach to their PLC panels: an item name
 * made of a prefix and a two-digit, zero-padded index, coloured after the
 * track line it belongs to.
 */
module DigitalLabels {
  import opened Wrappers
  import opened Text
  import opened Tracks

  /** One `{'item': ..., 'color': ...}` entry; the colour is the colour of `line`. */
  datatype DigitalLabel = DigitalLabel(item: string, line: Line)

  /** `prefix + str(i).zfill(2)`. */
  function ItemName(prefix: string, i: nat): string
  {
    prefix + ZFill(NatToString(i), 2)
  }

  /** The labels one `for i in range(from, to)` loop appends, in order. */
  function Labels(prefix: string, line: Line, from: nat, to: nat): (r: seq<DigitalLabel>)
    ensures |r| == if from <= to then to - from else 0
    ensures forall j :: 0 <= j < |r| ==> r[j] == DigitalLabel(ItemName(prefix, from + j), line)
  {
    if to <= from then [] else seq(to - from, j requires 0 <= j < to - from => DigitalLabel(ItemName(prefix, from + j), line))
  }

  /** One more step of the loop appends one more label. */
  lemma LabelsSnoc(prefix: string, line: Line, from: nat, i: nat)
    requires from <= i
    ensures Labels(prefix, line, from, i + 1) == Labels(prefix, line, from, i) + [DigitalLabel(ItemName(prefix, i), line)]
  {
    var a, b := Labels(prefix, line, from, i + 1), Labels(prefix, line, from, i) + [DigitalLabel(ItemName(prefix, i), line)];
    assert |a| == |b|;
    forall j | 0 <= j < |a|
      ensures a[j] == b[j]
    {
      if j < i - from {
        assert b[j] == Labels(prefix, line, from, i)[j];
      } else {
        assert from + j == i;
      }
    }
  }

  /** Appends, one by one, the labels of `range(from, to)` to `lbs`. */
  method AppendLabels(lbs: seq<DigitalLabel>, prefix: string, line: Line, from: nat, to: nat)
    returns (r: seq<DigitalLabel>)
    ensures r == lbs + Labels(prefix, line, from, to)
  {
    r := lbs;
    if to <= from {
      return;
    }
    for i := from to to
      invariant r == lbs + Labels(prefix, line, from, i)
    {
      r := r + [DigitalLabel(ItemName(prefix, i), line)];
      LabelsSnoc(prefix, line, from, i);
    }
  }

  /** Below 100 an item name is the prefix and exactly two digits, which read back as the index. */
  lemma ItemNameDigits(prefix: string, i: nat)
    requires i < 100
    ensures ItemName(prefix, i) == prefix + [DigitChar(i / 10), DigitChar(i % 10)]
    ensures ParseNat(ItemName(prefix, i)[|prefix|..]) == Some(i)
  {
    TwoDigits(i);
    ParseTwoDigits(i);
    assert ItemName(prefix, i)[|prefix|..] == ZFill(NatToString(i), 2);
  }

  /** Two indices below 100 give the same item name under one prefix only if they are equal. */
  lemma ItemNameInjective(prefix: string, i: nat, j: nat)
    requires i < 100 && j < 100 && ItemName(prefix, i) == ItemName(prefix, j)
    ensures i == j
  {
    ItemNameDigits(prefix, i);
    ItemNameDigits(prefix, j);
  }

  /** A loop over `range(from, to)` below 100 shows no label for an index outside that range. */
  lemma LabelsExclude(prefix: string, line: Line, from: nat, to: nat, i: nat)
    requires to <= 100 && i < 100 && (i < from || to <= i)
    ensures forall j :: 0 <= j < |Labels(prefix, line, from, to)| ==> Labels(prefix, line, from, to)[j].item != ItemName(prefix, i)
  {
    forall j | 0 <= j < |Labels(prefix, line, from, to)|
      ensures Labels(prefix, line, from, to)[j].item != ItemName(prefix, i)
    {
      if Labels(prefix, line, from, to)[j].item == ItemName(prefix, i) {
        ItemNameInjective(prefix, from + j, i);
      }
    }
  }

  /** Item names under two different prefixes of one length never coincide. */
  lemma ItemNamePrefix(p: string, q: string, i: nat, j: nat)
    requires |p| == |q| && p != q
    ensures ItemName(p, i) != ItemName(q, j)
  {
    assert ItemName(p, i)[..|p|] == p;
    assert ItemName(q, j)[..|q|] == q;
  }
}
