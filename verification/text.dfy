/**
 * The string operations the HMI uses on the names it builds itself:
 * `str(n)` for a natural number, `int(s)` on a string of digits,
 * `s.split(c)[-1]`, `s.split(c)[0]` and `s.zfill(w)`.
 */
module Text {
  import opened Wrappers

  predicate IsDigit(c: char) { '0' <= c <= '9' }

  predicate AllDigits(s: string) { forall i :: 0 <= i < |s| ==> IsDigit(s[i]) }

  function DigitChar(d: nat): (c: char)
    requires d < 10
    ensures IsDigit(c)
  {
    ('0' as int + d) as char
  }

  function DigitValue(c: char): (d: nat)
    requires IsDigit(c)
    ensures d < 10 && DigitChar(d) == c
  {
    c as int - '0' as int
  }

  /** Python's `str(n)` for `n >= 0`: decimal digits, no leading zero. */
  function NatToString(n: nat): (s: string)
    ensures 1 <= |s| && AllDigits(s)
    ensures (|s| == 1) == (n < 10)
  {
    if n < 10 then [DigitChar(n)] else NatToString(n / 10) + [DigitChar(n % 10)]
  }

  /** Python's `str(n)` for any integer: a minus sign before the digits of a negative number. */
  function IntToString(n: int): (s: string)
    ensures n >= 0 ==> s == NatToString(n)
    ensures n < 0 ==> 2 <= |s| && s[0] == '-'
  {
    if n >= 0 then NatToString(n) else "-" + NatToString(-n)
  }

  /** The number a non-empty string of decimal digits denotes. */
  function DigitsValue(s: string): nat
    requires AllDigits(s)
  {
    if |s| == 0 then 0 else DigitsValue(s[..|s| - 1]) * 10 + DigitValue(s[|s| - 1])
  }

  /**
   * Python's `int(s)`, restricted to strings of ASCII decimal digits: the
   * model accepts exactly those and returns `None` for every other string.
   * Python also accepts a sign, surrounding blanks, underscores between
   * digits and non-ASCII decimal digits, which this model does not.
   */
  function ParseNat(s: string): (r: Option<nat>)
    ensures r.Some? <==> 1 <= |s| && AllDigits(s)
  {
    if 1 <= |s| && AllDigits(s) then Some(DigitsValue(s)) else None
  }

  lemma {:induction false} DigitsValueOfNatToString(n: nat)
    ensures DigitsValue(NatToString(n)) == n
  {
    var s := NatToString(n);
    if n >= 10 {
      DigitsValueOfNatToString(n / 10);
      assert s[..|s| - 1] == NatToString(n / 10);
    }
  }

  /** `int(str(n)) == n`. */
  lemma ParseNatToString(n: nat)
    ensures ParseNat(NatToString(n)) == Some(n)
  {
    DigitsValueOfNatToString(n);
  }

  /** Leading zeros do not change the value `int` reads. */
  lemma LeadingZero(s: string)
    requires AllDigits(s)
    ensures AllDigits("0" + s) && DigitsValue("0" + s) == DigitsValue(s)
    decreases |s|
  {
    if |s| > 0 {
      assert ("0" + s)[..|"0" + s| - 1] == "0" + s[..|s| - 1];
      LeadingZero(s[..|s| - 1]);
    }
  }

  /** Python's `s.split(c)[-1]`: the part of `s` after its last `c`, or all of `s`. */
  function AfterLast(s: string, c: char): (r: string)
    ensures c !in r
    ensures |r| <= |s| && r == s[|s| - |r|..]
    ensures |r| < |s| ==> s[|s| - |r| - 1] == c
  {
    if |s| == 0 then ""
    else if s[|s| - 1] == c then ""
    else AfterLast(s[..|s| - 1], c) + [s[|s| - 1]]
  }

  /** Python's `s.split(c)[0]`: the part of `s` before its first `c`, or all of `s`. */
  function BeforeFirst(s: string, c: char): (r: string)
    ensures c !in r
    ensures |r| <= |s| && r == s[..|r|]
    ensures |r| < |s| ==> s[|r|] == c
  {
    if |s| == 0 then ""
    else if s[0] == c then ""
    else [s[0]] + BeforeFirst(s[1..], c)
  }

  /** Splitting at the last separator recovers whatever followed it. */
  lemma {:induction false} AfterLastOfJoin(p: string, c: char, t: string)
    requires c !in t
    ensures AfterLast(p + [c] + t, c) == t
  {
    if |t| > 0 {
      assert (p + [c] + t)[..|p + [c] + t| - 1] == p + [c] + t[..|t| - 1];
      AfterLastOfJoin(p, c, t[..|t| - 1]);
    }
  }

  /** A string with no `c` in it is its own first field. */
  lemma {:induction false} BeforeFirstNone(s: string, c: char)
    requires c !in s
    ensures BeforeFirst(s, c) == s
  {
    if |s| > 0 {
      BeforeFirstNone(s[1..], c);
    }
  }

  function Zeros(k: nat): (r: string)
    ensures |r| == k && forall i :: 0 <= i < k ==> r[i] == '0'
  {
    if k == 0 then "" else "0" + Zeros(k - 1)
  }

  /** Python's `s.zfill(w)` on unsigned strings: left-pad with '0' up to width `w`. */
  function ZFill(s: string, w: nat): (r: string)
    ensures |r| == if |s| < w then w else |s|
    ensures r[|r| - |s|..] == s
    ensures forall i :: 0 <= i < |r| - |s| ==> r[i] == '0'
  {
    if |s| < w then Zeros(w - |s|) + s else s
  }

  /** `str(n).zfill(2)` for `n < 100` is exactly the two decimal digits of `n`. */
  lemma TwoDigits(n: nat)
    requires n < 100
    ensures ZFill(NatToString(n), 2) == [DigitChar(n / 10), DigitChar(n % 10)]
  {
  }

  /** Reading back a two-digit zero-padded label suffix gives its number. */
  lemma ParseTwoDigits(n: nat)
    requires n < 100
    ensures ParseNat(ZFill(NatToString(n), 2)) == Some(n)
  {
    ParseNatToString(n);
    if n < 10 {
      LeadingZero(NatToString(n));
      assert ZFill(NatToString(n), 2) == "0" + NatToString(n);
    }
  }
}
