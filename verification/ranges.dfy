/**
 * Half-open index ranges `(start, end)` into a controller's register or coil
 * vector, the way the HMI configuration tables write them, and Python's
 * clamping slice `v[start:end]`.
 */
module Ranges {

  /** A configuration pair `(start, end)`: the indices `start <= k < end`. */
  datatype Range = Range(lo: nat, hi: nat)
  {
    predicate Contains(k: int) { lo <= k < hi }

    function Width(): int { hi - lo }
  }

  /**
   * `rs` lays its ranges end to end, in order, from `lo` to `hi`:
   * the first starts at `lo`, each starts where the previous ends,
   * and the last ends at `hi`.
   */
  predicate Tiles(rs: seq<Range>, lo: nat, hi: nat)
    decreases |rs|
  {
    if |rs| == 0 then lo == hi
    else rs[0].lo == lo && rs[0].lo <= rs[0].hi && Tiles(rs[1..], rs[0].hi, hi)
  }

  /** Every range of a tiling lies inside `[lo, hi)`, and the ranges come in increasing order. */
  lemma {:induction false} TilesOrdered(rs: seq<Range>, lo: nat, hi: nat)
    requires Tiles(rs, lo, hi)
    ensures lo <= hi
    ensures forall i :: 0 <= i < |rs| ==> lo <= rs[i].lo <= rs[i].hi <= hi
    ensures forall i, j :: 0 <= i < j < |rs| ==> rs[i].hi <= rs[j].lo
  {
    if |rs| > 0 {
      TilesOrdered(rs[1..], rs[0].hi, hi);
      assert forall i :: 1 <= i < |rs| ==> rs[i] == rs[1..][i - 1];
    }
  }

  /** A tiling covers its whole span: every index of `[lo, hi)` is in some range. */
  lemma {:induction false} TilesCover(rs: seq<Range>, lo: nat, hi: nat, k: int)
    requires Tiles(rs, lo, hi)
    requires lo <= k < hi
    ensures exists i :: 0 <= i < |rs| && rs[i].Contains(k)
  {
    if rs[0].Contains(k) {
      assert rs[0].Contains(k);
    } else {
      TilesCover(rs[1..], rs[0].hi, hi, k);
      var i :| 0 <= i < |rs[1..]| && rs[1..][i].Contains(k);
      assert rs[i + 1].Contains(k);
    }
  }

  /** The ranges of a tiling are pairwise disjoint. */
  lemma TilesDisjoint(rs: seq<Range>, lo: nat, hi: nat, i: int, j: int, k: int)
    requires Tiles(rs, lo, hi)
    requires 0 <= i < |rs| && 0 <= j < |rs| && i != j
    ensures !(rs[i].Contains(k) && rs[j].Contains(k))
  {
    TilesOrdered(rs, lo, hi);
  }

  /**
   * Python's `v[a:b]` for non-negative `a`, `b`: both bounds are clamped
   * to `len(v)` and an empty slice results when `a >= b`.
   */
  function PySlice<T>(v: seq<T>, a: nat, b: nat): (r: seq<T>)
    ensures |r| == if b <= a || |v| <= a then 0 else (if b < |v| then b else |v|) - a
    ensures forall i :: 0 <= i < |r| ==> r[i] == v[a + i]
  {
    var lo := if a < |v| then a else |v|;
    var hi := if b < |v| then b else |v|;
    if lo < hi then v[lo..hi] else []
  }

  /** When the vector is long enough, the slice has exactly the range's width. */
  lemma SliceOfRange<T>(v: seq<T>, r: Range)
    requires r.lo <= r.hi <= |v|
    ensures PySlice(v, r.lo, r.hi) == v[r.lo..r.hi]
    ensures |PySlice(v, r.lo, r.hi)| == r.Width()
  {
  }

  /**
   * `base` after copying `upd` over it index by index for
   * `min(|base|, |upd|)` indices; the length of `base` is kept.
   */
  function Overlay<T>(base: seq<T>, upd: seq<T>): (r: seq<T>)
    ensures |r| == |base|
    ensures forall i :: 0 <= i < |r| ==> r[i] == if i < |upd| then upd[i] else base[i]
  {
    if |upd| < |base| then upd + base[|upd|..] else upd[..|base|]
  }

  /** Overlaying a list with itself changes nothing. */
  lemma OverlaySelf<T>(base: seq<T>)
    ensures Overlay(base, base) == base
  {
  }

  /** Overlaying the same list twice leaves what the first overlay left. */
  lemma OverlayTwice<T>(base: seq<T>, upd: seq<T>)
    ensures Overlay(Overlay(base, upd), upd) == Overlay(base, upd)
  {
  }

  /** A list at least as long as `base` replaces every entry. */
  lemma OverlayCovers<T>(base: seq<T>, upd: seq<T>)
    requires |base| <= |upd|
    ensures Overlay(base, upd) == upd[..|base|]
  {
  }
}
