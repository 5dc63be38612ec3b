/**
 * The countdown label: `format_time` splits a number of seconds with Python's
 * `divmod(seconds, 60)` and prints both parts with the `02d` format
 * (zero-padded to a width of two, sign first for negative numbers).
 *
 * Beside the formatter sits an independent reader of `MM:SS` strings; the
 * round trip between the two is what pins down the formatter's meaning.
 */
module TimeFormat {

  predicate IsDigit(c: char) {
    '0' <= c <= '9'
  }

  predicate AllDigits(s: string) {
    forall i :: 0 <= i < |s| ==> IsDigit(s[i])
  }

  function DigitChar(d: nat): (c: char)
    requires d < 10
    ensures IsDigit(c)
  {
    ['0', '1', '2', '3', '4', '5', '6', '7', '8', '9'][d]
  }

  /** Value of one decimal digit; characters that are not digits read as 0. */
  function DigitValue(c: char): (d: nat)
    ensures d < 10
  {
    if IsDigit(c) then (c as int) - ('0' as int) else 0
  }

  lemma DigitValueOfDigitChar(d: nat)
    requires d < 10
    ensures DigitValue(DigitChar(d)) == d
  {
  }

  /** Python's `str(n)` for a non-negative integer: decimal, no leading zeros. */
  function Decimal(n: nat): (r: string)
    ensures 1 <= |r|
    ensures AllDigits(r)
    ensures 1 <= n ==> r[0] != '0'
    ensures ParseDecimal(r) == n
    ensures n < 10 <==> |r| == 1
    ensures 10 <= n < 100 ==> |r| == 2
    ensures 100 <= n ==> 3 <= |r|
    decreases n
  {
    DigitValueOfDigitChar(n % 10);
    if n < 10 then [DigitChar(n)]
    else
      var front := Decimal(n / 10);
      var r := front + [DigitChar(n % 10)];
      assert r[..|r| - 1] == front;
      r
  }

  /** Reads a string of decimal digits, most significant first. */
  function ParseDecimal(s: string): (n: nat)
    decreases |s|
  {
    if |s| == 0 then 0 else ParseDecimal(s[..|s| - 1]) * 10 + DigitValue(s[|s| - 1])
  }

  /** Reads an optionally `-`-signed decimal integer. */
  function ParseSigned(s: string): int {
    if 0 < |s| && s[0] == '-' then -(ParseDecimal(s[1..]) as int) else ParseDecimal(s)
  }

  /** A single digit behind a `0` still reads as that digit. */
  lemma ParseLeadingZero(m: nat)
    requires m < 10
    ensures ParseDecimal("0" + Decimal(m)) == m
  {
    var r := "0" + Decimal(m);
    assert r[..1] == "0";
    assert ParseDecimal(r[..1]) == 0;
    DigitValueOfDigitChar(m);
  }

  lemma ParseSignedOfNegative(k: nat)
    requires 0 < k
    ensures ParseSigned("-" + Decimal(k)) == -(k as int)
  {
    var r := "-" + Decimal(k);
    assert r[1..] == Decimal(k);
  }

  lemma ParseSignedOfDigits(s: string)
    requires AllDigits(s)
    ensures ParseSigned(s) == ParseDecimal(s)
  {
    if 0 < |s| {
      assert IsDigit(s[0]);
    }
  }

  /**
   * Python's `f"{m:02d}"`: the decimal value of `m`, at least two characters,
   * zero fill after the sign.
   */
  function Pad2(m: int): (r: string)
    ensures ParseSigned(r) == m
    ensures 0 <= m ==> ParseDecimal(r) == m
    ensures 2 <= |r|
    ensures 0 <= m < 100 ==> |r| == 2
    ensures 0 <= m ==> AllDigits(r)
    ensures 10 <= m ==> r[0] != '0'
    ensures m < 0 ==> r[0] == '-' && AllDigits(r[1..]) && r[1] != '0'
  {
    if m < 0 then
      var r := "-" + Decimal(-m);
      assert r[1..] == Decimal(-m);
      ParseSignedOfNegative(-m);
      r
    else if m < 10 then
      var r := "0" + Decimal(m);
      ParseLeadingZero(m);
      ParseSignedOfDigits(r);
      r
    else
      ParseSignedOfDigits(Decimal(m));
      Decimal(m)
  }

  /**
   * `format_time(seconds)`: minutes `seconds / 60` and seconds `seconds % 60`
   * (both floored, as `divmod` with a positive divisor), padded and joined by `:`.
   */
  function FormatTime(n: int): (r: string)
    ensures 5 <= |r|
    ensures r[|r| - 3] == ':'
    ensures ParseSigned(r[..|r| - 3]) == n / 60
    ensures AllDigits(r[|r| - 2..])
    ensures ParseDecimal(r[|r| - 2..]) == n % 60 < 60
    ensures 0 <= n ==> AllDigits(r[..|r| - 3])
    ensures 0 <= n ==> (n < 6000 <==> |r| == 5)
    ensures 600 <= n ==> r[0] != '0'
    ensures n < 0 ==> r[0] == '-' && AllDigits(r[1..|r| - 3]) && r[1] != '0'
  {
    var mins := Pad2(n / 60);
    var secs := Pad2(n % 60);
    var r := mins + ":" + secs;
    assert r[..|r| - 3] == mins && r[0] == mins[0] && r[1] == mins[1];
    assert r[1..|r| - 3] == mins[1..];
    assert r[|r| - 2..] == secs;
    r
  }

  /** Reads a `format_time` label back: signed minutes, `:`, two seconds digits. */
  function ParseTime(s: string): int
    requires 3 <= |s|
  {
    ParseSigned(s[..|s| - 3]) * 60 + ParseDecimal(s[|s| - 2..])
  }

  /** The label names exactly the number of seconds it was made from. */
  lemma FormatTimeRoundTrip(n: int)
    ensures ParseTime(FormatTime(n)) == n
  {
  }

  /** Distinct second counts never share a label. */
  lemma FormatTimeInjective(a: int, b: int)
    requires FormatTime(a) == FormatTime(b)
    ensures a == b
  {
    FormatTimeRoundTrip(a);
    FormatTimeRoundTrip(b);
  }

  /** The first label a fresh timer shows (25 minutes). */
  lemma FormatTimeDefault()
    ensures FormatTime(25 * 60) == "25:00"
  {
  }
}
