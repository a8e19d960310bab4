/**
 * Rendering of non-negative integers as digit strings, as Python's `format`
 * and `str` do it: `format(n, "032x")` for trace ids, `format(n, "016x")` for
 * span ids (lowercase hexadecimal, zero-padded on the left to a minimum width)
 * and `str(n)` for the status label of a counter.
 */
module Digits {

  function Pow(b: nat, e: nat): nat
  {
    if e == 0 then 1 else b * Pow(b, e - 1)
  }

  predicate IsLowerHexDigit(c: char)
  {
    '0' <= c <= '9' || 'a' <= c <= 'f'
  }

  /** The value of a digit character; characters that are not digits read as 0. */
  function DigitValue(c: char): nat
  {
    if '0' <= c <= '9' then c as int - '0' as int
    else if 'a' <= c <= 'f' then c as int - 'a' as int + 10
    else 0
  }

  /** A character that is a digit of the given base. */
  predicate IsDigit(c: char, base: nat)
  {
    IsLowerHexDigit(c) && DigitValue(c) < base
  }

  function DigitChar(d: nat): (c: char)
    requires d < 16
    ensures IsLowerHexDigit(c) && DigitValue(c) == d
  {
    if d < 10 then ('0' as int + d) as char else ('a' as int + (d - 10)) as char
  }

  /** The digits of n in the given base, most significant first, without leading zeros. */
  function ToDigits(n: nat, base: nat): (s: string)
    requires 2 <= base <= 16
    ensures |s| >= 1
    ensures forall i :: 0 <= i < |s| ==> IsDigit(s[i], base)
    ensures |s| > 1 ==> s[0] != '0'
    decreases n
  {
    if n < base then [DigitChar(n)]
    else
      DivFacts(n, base);
      ToDigits(n / base, base) + [DigitChar(n % base)]
  }

  lemma DivFacts(n: nat, base: nat)
    requires 2 <= base <= n
    ensures 1 <= n / base < n && n % base < base
    ensures n == (n / base) * base + n % base
  {
  }

  /** The number a digit string denotes in the given base (the reference reading). */
  function FromDigits(s: string, base: nat): nat
  {
    if s == [] then 0 else FromDigits(s[..|s| - 1], base) * base + DigitValue(s[|s| - 1])
  }

  function Zeros(k: nat): (z: string)
  {
    seq(k, _ => '0')
  }

  /** Python's `format(n, "0<width>x")`. */
  function FormatHex(n: nat, width: nat): (r: string)
    ensures |r| >= width && |r| >= |ToDigits(n, 16)|
    ensures |r| == width || |r| == |ToDigits(n, 16)|
    ensures forall i :: 0 <= i < |r| ==> IsLowerHexDigit(r[i])
  {
    var d := ToDigits(n, 16);
    if |d| < width then Zeros(width - |d|) + d else d
  }

  /** `format(trace_id, "032x")`. */
  function TraceIdHex(id: nat): (s: string)
    ensures |s| >= 32
    ensures forall i :: 0 <= i < |s| ==> IsLowerHexDigit(s[i])
    ensures FromDigits(s, 16) == id
    ensures |s| == 32 <==> id < Pow(16, 32)
  {
    FormatHexRoundTrip(id, 32);
    FormatHexWidth(id, 32);
    FormatHex(id, 32)
  }

  /** `format(span_id, "016x")`. */
  function SpanIdHex(id: nat): (s: string)
    ensures |s| >= 16
    ensures forall i :: 0 <= i < |s| ==> IsLowerHexDigit(s[i])
    ensures FromDigits(s, 16) == id
    ensures |s| == 16 <==> id < Pow(16, 16)
  {
    FormatHexRoundTrip(id, 16);
    FormatHexWidth(id, 16);
    FormatHex(id, 16)
  }

  /** Python's `str(i)` for an integer. */
  function DecimalString(i: int): (s: string)
    ensures |s| >= 1
    ensures s[0] == '-' <==> i < 0
    ensures i < 0 ==> |s| >= 2
    ensures forall k :: (if i < 0 then 1 else 0) <= k < |s| ==> IsDigit(s[k], 10)
    ensures |s| > (if i < 0 then 2 else 1) ==> s[if i < 0 then 1 else 0] != '0'
  {
    if i < 0 then "-" + ToDigits(-i, 10) else ToDigits(i, 10)
  }

  /** The integer a decimal string denotes (the reference reading of `DecimalString`). */
  function ParseDecimal(s: string): int
  {
    if |s| > 0 && s[0] == '-' then -(FromDigits(s[1..], 10) as int) else FromDigits(s, 10)
  }

  lemma FromDigitsSnoc(s: string, c: char, base: nat)
    ensures FromDigits(s + [c], base) == FromDigits(s, base) * base + DigitValue(c)
  {
    assert (s + [c])[..|s|] == s;
  }

  /** Leading zeros do not change the value of a digit string. */
  lemma {:induction false} FromDigitsZeros(k: nat, s: string, base: nat)
    ensures FromDigits(Zeros(k) + s, base) == FromDigits(s, base)
    decreases |s|
  {
    if s == [] {
      assert Zeros(k) + s == Zeros(k);
      ZerosValue(k, base);
    } else {
      var init, last := s[..|s| - 1], s[|s| - 1];
      assert s == init + [last];
      assert Zeros(k) + s == (Zeros(k) + init) + [last];
      FromDigitsSnoc(Zeros(k) + init, last, base);
      FromDigitsSnoc(init, last, base);
      FromDigitsZeros(k, init, base);
    }
  }

  lemma {:induction false} ZerosValue(k: nat, base: nat)
    ensures FromDigits(Zeros(k), base) == 0
  {
    if k > 0 {
      assert Zeros(k) == Zeros(k - 1) + ['0'];
      FromDigitsSnoc(Zeros(k - 1), '0', base);
      ZerosValue(k - 1, base);
    }
  }

  /** Reading the digits of n back gives n. */
  lemma {:induction false} ToDigitsRoundTrip(n: nat, base: nat)
    requires 2 <= base <= 16
    ensures FromDigits(ToDigits(n, base), base) == n
    decreases n
  {
    if n < base {
      assert [DigitChar(n)] == [] + [DigitChar(n)];
      FromDigitsSnoc([], DigitChar(n), base);
    } else {
      DivFacts(n, base);
      ToDigitsRoundTrip(n / base, base);
      FromDigitsSnoc(ToDigits(n / base, base), DigitChar(n % base), base);
    }
  }

  /** `format(n, "0<width>x")` parses back to n. */
  lemma FormatHexRoundTrip(n: nat, width: nat)
    ensures FromDigits(FormatHex(n, width), 16) == n
  {
    var d := ToDigits(n, 16);
    ToDigitsRoundTrip(n, 16);
    if |d| < width {
      FromDigitsZeros(width - |d|, d, 16);
    }
  }

  lemma DivBound(n: nat, b: nat, p: nat)
    requires b > 0
    ensures n / b < p <==> n < b * p
  {
    var q, r := n / b, n % b;
    assert n == b * q + r && 0 <= r < b;
    if q < p {
      assert q <= p - 1;
      assert b * q <= b * (p - 1);
    } else {
      assert b * q >= b * p;
    }
  }

  /** The digits of n fit in w places exactly when n is below base^w. */
  lemma {:induction false} ToDigitsFits(n: nat, base: nat, w: nat)
    requires 2 <= base <= 16 && w >= 1
    ensures |ToDigits(n, base)| <= w <==> n < Pow(base, w)
    decreases w
  {
    if n < base {
      PowAtLeastBase(base, w);
    } else if w == 1 {
      assert |ToDigits(n, base)| == |ToDigits(n / base, base)| + 1;
    } else {
      ToDigitsFits(n / base, base, w - 1);
      DivBound(n, base, Pow(base, w - 1));
    }
  }

  lemma {:induction false} PowAtLeastBase(base: nat, w: nat)
    requires base >= 1 && w >= 1
    ensures Pow(base, w) >= base
  {
    if w > 1 {
      PowAtLeastBase(base, w - 1);
      assert base * Pow(base, w - 1) >= base * 1;
    }
  }

  /** `format(n, "0<width>x")` is exactly width characters long exactly when n < 16^width. */
  lemma FormatHexWidth(n: nat, width: nat)
    requires width >= 1
    ensures |FormatHex(n, width)| == width <==> n < Pow(16, width)
  {
    ToDigitsFits(n, 16, width);
  }

  /** `str(i)` reads back as i, so distinct statuses give distinct labels. */
  lemma DecimalRoundTrip(i: int)
    ensures ParseDecimal(DecimalString(i)) == i
  {
    if i < 0 {
      var d := ToDigits(-i, 10);
      assert ("-" + d)[1..] == d;
      ToDigitsRoundTrip(-i, 10);
    } else {
      ToDigitsRoundTrip(i, 10);
      var d := ToDigits(i, 10);
      assert d[0] != '-' by { assert IsDigit(d[0], 10); }
    }
  }

  lemma DecimalInjective(i: int, j: int)
    ensures DecimalString(i) == DecimalString(j) <==> i == j
  {
    DecimalRoundTrip(i);
    DecimalRoundTrip(j);
  }

  /**
   * A lowercase hexadecimal string of a given length is determined by its value,
   * so `TraceIdHex(id)` for id < 16^32 is the one 32-character rendering of id.
   */
  lemma {:induction false} HexDeterminedByValue(s: string, t: string)
    requires |s| == |t|
    requires forall i :: 0 <= i < |s| ==> IsLowerHexDigit(s[i])
    requires forall i :: 0 <= i < |t| ==> IsLowerHexDigit(t[i])
    requires FromDigits(s, 16) == FromDigits(t, 16)
    ensures s == t
    decreases |s|
  {
    if s != [] {
      var s', a := s[..|s| - 1], s[|s| - 1];
      var t', b := t[..|t| - 1], t[|t| - 1];
      assert s == s' + [a] && t == t' + [b];
      var v := FromDigits(s, 16);
      assert v == FromDigits(s', 16) * 16 + DigitValue(a);
      assert v == FromDigits(t', 16) * 16 + DigitValue(b);
      assert DigitValue(a) == DigitValue(b) && FromDigits(s', 16) == FromDigits(t', 16);
      HexDeterminedByValue(s', t');
    }
  }

  lemma DecimalExamples()
    ensures DecimalString(200) == "200" && DecimalString(500) == "500"
  {
  }
}
