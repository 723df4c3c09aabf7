/** Bin labels of the confidence charts: the decimal text `"{lo}-{hi}"`
    that Python's f-string gives for two non-negative integers. */
module Labels {

  predicate IsDigit(c: char) {
    '0' <= c <= '9'
  }

  predicate AllDigits(s: string) {
    forall i :: 0 <= i < |s| ==> IsDigit(s[i])
  }

  function DigitChar(d: nat): (c: char)
    requires d < 10
    ensures IsDigit(c)
  {
    ('0' as int + d) as char
  }

  function DigitValue(c: char): (d: nat)
    requires IsDigit(c)
    ensures d < 10 && DigitChar(d) == c
  {
    c as int - '0' as int
  }

  /** Decimal text of n, most significant digit first, no leading zeros. */
  function NatToString(n: nat): (s: string)
    ensures |s| > 0 && AllDigits(s)
    ensures |s| > 1 ==> s[0] != '0'
  {
    if n < 10 then [DigitChar(n)] else NatToString(n / 10) + [DigitChar(n % 10)]
  }

  /** Value of a string of decimal digits. */
  function ParseNat(s: string): nat
    requires AllDigits(s)
  {
    if s == [] then 0 else ParseNat(s[..|s| - 1]) * 10 + DigitValue(s[|s| - 1])
  }

  /** Reading back the text of n gives n. */
  lemma {:induction false} ParseNatToString(n: nat)
    ensures ParseNat(NatToString(n)) == n
  {
    var s := NatToString(n);
    if n >= 10 {
      ParseNatToString(n / 10);
      assert s[..|s| - 1] == NatToString(n / 10);
      assert DigitValue(s[|s| - 1]) == n % 10;
    } else {
      assert s[..0] == [];
    }
  }

  /** Distinct numbers have distinct texts. */
  lemma NatToStringInjective(m: nat, n: nat)
    requires NatToString(m) == NatToString(n)
    ensures m == n
  {
    ParseNatToString(m);
    ParseNatToString(n);
  }

  /** The label of the bin for the integers lo..hi. */
  function RangeLabel(lo: nat, hi: nat): string {
    NatToString(lo) + "-" + NatToString(hi)
  }

  /** Position of the first '-' in s, or |s| when there is none. */
  function IndexOfDash(s: string): (k: nat)
    ensures k <= |s|
    ensures k < |s| ==> s[k] == '-'
    ensures forall i :: 0 <= i < k ==> s[i] != '-'
  {
    if s == [] then 0 else if s[0] == '-' then 0 else 1 + IndexOfDash(s[1..])
  }

  lemma {:induction false} IndexOfDashAfterDigits(d: string, t: string)
    requires AllDigits(d)
    ensures IndexOfDash(d + "-" + t) == |d|
  {
    if d != [] {
      assert (d + "-" + t)[1..] == d[1..] + "-" + t;
      IndexOfDashAfterDigits(d[1..], t);
    }
  }

  /** The text before and after the first '-' of a label. */
  function LowerText(s: string): string {
    s[..IndexOfDash(s)]
  }

  function UpperText(s: string): string {
    if IndexOfDash(s) < |s| then s[IndexOfDash(s) + 1..] else []
  }

  /** A label names its bounds: both can be read back from it. */
  lemma RangeLabelParts(lo: nat, hi: nat)
    ensures LowerText(RangeLabel(lo, hi)) == NatToString(lo)
    ensures UpperText(RangeLabel(lo, hi)) == NatToString(hi)
    ensures ParseNat(LowerText(RangeLabel(lo, hi))) == lo
    ensures ParseNat(UpperText(RangeLabel(lo, hi))) == hi
  {
    var a, b := NatToString(lo), NatToString(hi);
    IndexOfDashAfterDigits(a, b);
    assert (a + "-" + b)[..|a|] == a;
    assert (a + "-" + b)[|a| + 1..] == b;
    ParseNatToString(lo);
    ParseNatToString(hi);
  }

  /** Two bins carry the same label only when they have the same bounds. */
  lemma RangeLabelInjective(lo1: nat, hi1: nat, lo2: nat, hi2: nat)
    requires RangeLabel(lo1, hi1) == RangeLabel(lo2, hi2)
    ensures lo1 == lo2 && hi1 == hi2
  {
    RangeLabelParts(lo1, hi1);
    RangeLabelParts(lo2, hi2);
  }
}
