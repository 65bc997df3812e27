/**
 * Decimal integers as the chaincode reads and writes them: `strconv.Atoi`
 * for the amount argument, and the decimal rendering `encoding/json` uses
 * for an `int` field. Go's `int` is 64 bits wide on the platforms a Fabric
 * peer runs on.
 */
module Numbers {
  import opened Wrappers

  const MinInt64: int := -0x8000_0000_0000_0000
  const MaxInt64: int := 0x7fff_ffff_ffff_ffff

  /** A value of Go's (64-bit) `int`. */
  type Int64 = x: int | MinInt64 <= x <= MaxInt64

  predicate IsDigit(c: char) {
    '0' <= c <= '9'
  }

  predicate AllDigits(s: string) {
    forall i :: 0 <= i < |s| ==> IsDigit(s[i])
  }

  function DigitValue(c: char): (d: nat)
    requires IsDigit(c)
    ensures d < 10
  {
    c as int - '0' as int
  }

  function DigitChar(d: nat): (c: char)
    requires d < 10
    ensures IsDigit(c) && DigitValue(c) == d
  {
    ('0' as int + d) as char
  }

  /** The value of a string of decimal digits, most significant digit first. */
  function DigitsValue(s: string): nat
    requires AllDigits(s)
  {
    if |s| == 0 then 0 else 10 * DigitsValue(s[..|s| - 1]) + DigitValue(s[|s| - 1])
  }

  /**
   * The shortest decimal rendering of n. It reads back as n, and it starts
   * with '0' only when it is "0" itself.
   */
  function NatToDecimal(n: nat): (s: string)
    ensures |s| > 0 && AllDigits(s) && DigitsValue(s) == n
    ensures s[0] == '0' <==> n == 0
  {
    if n < 10 then
      [DigitChar(n)]
    else
      var prefix := NatToDecimal(n / 10);
      var s := prefix + [DigitChar(n % 10)];
      assert s[..|s| - 1] == prefix;
      s
  }

  /** `strconv.FormatInt(n, 10)`: a minus sign for negative values, then the digits. */
  function FormatInt(n: int): (s: string)
    ensures |s| > 0 && (s[0] == '-' <==> n < 0)
  {
    if n < 0 then "-" + NatToDecimal(-n) else NatToDecimal(n)
  }

  /**
   * `strconv.Atoi` with a 64-bit `int`: one optional '+' or '-', then at
   * least one decimal digit and nothing else (leading zeros allowed), and the
   * value must fit; anything else is an error, modelled as None.
   */
  function Atoi(s: string): (r: Option<Int64>)
    ensures r.Some? ==> |s| > 0 && IsDigit(s[|s| - 1])
    ensures r.Some? && AllDigits(s) ==> r.value == DigitsValue(s)
    ensures |s| > 0 && s[0] == '-' && r.Some? ==> r.value <= 0
  {
    var signed := |s| > 0 && (s[0] == '+' || s[0] == '-');
    var body := if signed then s[1..] else s;
    if |body| == 0 || !AllDigits(body) then
      None
    else
      var magnitude: int := DigitsValue(body);
      var v: int := if signed && s[0] == '-' then -magnitude else magnitude;
      if MinInt64 <= v <= MaxInt64 then Some(v) else None
  }

  /** Every amount the ledger can hold is accepted back by Atoi from its decimal text. */
  lemma AtoiFormatInt(n: Int64)
    ensures Atoi(FormatInt(n)) == Some(n)
  {
    var s := FormatInt(n);
    if n < 0 {
      var d := NatToDecimal(-(n as int));
      assert s[0] == '-' && s[1..] == d;
    } else {
      var d := NatToDecimal(n);
      assert s == d && s[0] != '+' && s[0] != '-';
    }
  }

  /** A bare run of digits is its decimal value, when that fits. */
  lemma AtoiDigits(d: string)
    requires |d| > 0 && AllDigits(d)
    ensures Atoi(d) == (if DigitsValue(d) <= MaxInt64 then Some(DigitsValue(d)) else None)
  {
    assert IsDigit(d[0]);
  }

  /** After '+', a run of digits is its decimal value, when that fits. */
  lemma AtoiPlusDigits(d: string)
    requires |d| > 0 && AllDigits(d)
    ensures Atoi("+" + d) == (if DigitsValue(d) <= MaxInt64 then Some(DigitsValue(d)) else None)
  {
    SignSplit('+', d);
  }

  /** After '-', a run of digits is the negation of its value, when that fits. */
  lemma AtoiMinusDigits(d: string)
    requires |d| > 0 && AllDigits(d)
    ensures Atoi("-" + d) == (if DigitsValue(d) <= -MinInt64 then Some(-(DigitsValue(d) as int)) else None)
  {
    SignSplit('-', d);
  }

  lemma SignSplit(c: char, d: string)
    ensures ([c] + d)[0] == c && ([c] + d)[1..] == d
  {
    assert ([c] + d)[1..] == d;
  }

  /** Every text Atoi accepts is a digit run, possibly after one sign. */
  lemma AtoiAcceptsOnlyDigits(s: string)
    requires Atoi(s).Some?
    ensures (|s| > 0 && AllDigits(s)) ||
            (|s| > 1 && (s[0] == '+' || s[0] == '-') && AllDigits(s[1..]))
  {
    if |s| > 0 && (s[0] == '+' || s[0] == '-') {
      assert AllDigits(s[1..]);
    } else {
      assert AllDigits(s);
    }
  }

  /** The number of leading decimal digits of s. */
  function DigitRun(s: string): (n: nat)
    ensures n <= |s| && AllDigits(s[..n])
    ensures n < |s| ==> !IsDigit(s[n])
  {
    if |s| == 0 || !IsDigit(s[0]) then
      0
    else
      var n := 1 + DigitRun(s[1..]);
      assert s[..n] == [s[0]] + s[1..][..n - 1];
      n
  }

  lemma {:induction false} DigitRunOfDigits(d: string, rest: string)
    requires AllDigits(d)
    requires rest == [] || !IsDigit(rest[0])
    ensures DigitRun(d + rest) == |d|
  {
    if |d| > 0 {
      assert (d + rest)[1..] == d[1..] + rest;
      DigitRunOfDigits(d[1..], rest);
    } else {
      assert d + rest == rest;
    }
  }
}
