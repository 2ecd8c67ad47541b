/**
 * The few pieces of JavaScript's number-to-text conversion the player and the
 * library panel rely on: `String(n)` for an integer, `padStart` with a
 * one-character filler, and the truncating remainder operator `%`.
 * `DecimalValue` reads a digit string back and is the partner of `NatToDecimal`.
 */
module Text {

  predicate IsDigit(c: char) {
    '0' <= c <= '9'
  }

  predicate AllDigits(s: string) {
    forall i :: 0 <= i < |s| ==> IsDigit(s[i])
  }

  function DigitChar(d: nat): (c: char)
    requires d < 10
    ensures IsDigit(c) && c as int - '0' as int == d
  {
    ('0' as int + d) as char
  }

  /** `String(n)` for a non-negative integer: decimal digits without leading zeros. */
  function NatToDecimal(n: nat): (s: string)
    ensures 1 <= |s| && AllDigits(s)
    ensures s[0] == '0' ==> n == 0
    ensures n < 10 <==> |s| == 1
  {
    if n < 10 then [DigitChar(n)] else NatToDecimal(n / 10) + [DigitChar(n % 10)]
  }

  /** The number a digit string denotes (the empty string denotes 0). */
  function DecimalValue(s: string): nat
    requires AllDigits(s)
  {
    if s == [] then 0
    else DecimalValue(s[..|s| - 1]) * 10 + (s[|s| - 1] as int - '0' as int)
  }

  lemma {:induction false} DecimalRoundTrip(n: nat)
    ensures DecimalValue(NatToDecimal(n)) == n
  {
    if n >= 10 {
      var s := NatToDecimal(n);
      assert s[..|s| - 1] == NatToDecimal(n / 10);
      DecimalRoundTrip(n / 10);
    }
  }

  lemma {:induction false} ShortDecimal(n: nat)
    requires n < 100
    ensures |NatToDecimal(n)| <= 2
  {
    if n >= 10 {
      assert |NatToDecimal(n / 10)| == 1;
    }
  }

  function Repeat(c: char, k: nat): (r: string)
    ensures |r| == k && forall i :: 0 <= i < k ==> r[i] == c
  {
    if k == 0 then [] else Repeat(c, k - 1) + [c]
  }

  /** `s.padStart(width, fill)` for a one-character `fill`. */
  function PadStart(s: string, width: nat, fill: char): (r: string)
    ensures |r| == if |s| < width then width else |s|
    ensures r[|r| - |s|..] == s
    ensures forall i :: 0 <= i < |r| - |s| ==> r[i] == fill
  {
    if |s| < width then Repeat(fill, width - |s|) + s else s
  }

  lemma {:induction false} ZerosValue(k: nat)
    ensures AllDigits(Repeat('0', k)) && DecimalValue(Repeat('0', k)) == 0
  {
    if k > 0 {
      var z := Repeat('0', k);
      assert z[..k - 1] == Repeat('0', k - 1);
      ZerosValue(k - 1);
    }
  }

  /** Leading zeros change neither the digit-ness nor the value of a digit string. */
  lemma {:induction false} LeadingZeros(k: nat, s: string)
    requires AllDigits(s)
    ensures AllDigits(Repeat('0', k) + s)
    ensures DecimalValue(Repeat('0', k) + s) == DecimalValue(s)
  {
    var z := Repeat('0', k);
    var t := z + s;
    ZerosValue(k);
    assert AllDigits(t) by {
      forall i | 0 <= i < |t| ensures IsDigit(t[i]) {
        if i < k { assert t[i] == z[i]; } else { assert t[i] == s[i - k]; }
      }
    }
    if s == [] {
      assert t == z;
    } else {
      var init := s[..|s| - 1];
      LeadingZeros(k, init);
      assert t[..|t| - 1] == z + init;
      assert t[|t| - 1] == s[|s| - 1];
    }
  }

  /** `String(n).padStart(width, "0")` still denotes `n`. */
  lemma ZeroPaddedDecimal(n: nat, width: nat)
    ensures AllDigits(PadStart(NatToDecimal(n), width, '0'))
    ensures DecimalValue(PadStart(NatToDecimal(n), width, '0')) == n
  {
    var d := NatToDecimal(n);
    DecimalRoundTrip(n);
    if |d| < width {
      LeadingZeros(width - |d|, d);
    }
  }

  /** `String(i)` for any integer: a minus sign before the digits of a negative one. */
  function IntToDecimal(i: int): (s: string)
    ensures 1 <= |s|
    ensures i >= 0 ==> s == NatToDecimal(i)
    ensures i < 0 ==> s[0] == '-' && s[1..] == NatToDecimal(-i)
  {
    if i < 0 then "-" + NatToDecimal(-i) else NatToDecimal(i)
  }

  /** JavaScript's `a % b` for a positive `b`: the remainder takes the sign of `a`. */
  function JsRem(a: int, b: int): (r: int)
    requires b > 0
    ensures a >= 0 ==> r == a % b
    ensures a < 0 ==> -b < r <= 0 && r == -((-a) % b)
  {
    if a >= 0 then a % b else -((-a) % b)
  }

  // ---------------------------------------------------------------------------
  // Reading a clock text back

  /** `r` is a digit field of at least `minWidth` characters, a colon and a two-digit field. */
  predicate IsClock(r: string, minWidth: nat) {
    && |r| >= minWidth + 3
    && r[|r| - 3] == ':'
    && AllDigits(r[..|r| - 3])
    && AllDigits(r[|r| - 2..])
  }

  function ClockMinutes(r: string): nat
    requires IsClock(r, 0)
  {
    DecimalValue(r[..|r| - 3])
  }

  function ClockSeconds(r: string): nat
    requires IsClock(r, 0)
  {
    DecimalValue(r[|r| - 2..])
  }

  /** Joining a digit field and a two-digit field with a colon gives a clock text that reads back as the two fields. */
  lemma JoinClock(m: string, sec: string, minWidth: nat)
    requires AllDigits(m) && AllDigits(sec) && |sec| == 2 && |m| >= minWidth
    ensures IsClock(m + ":" + sec, minWidth)
    ensures ClockMinutes(m + ":" + sec) == DecimalValue(m)
    ensures ClockSeconds(m + ":" + sec) == DecimalValue(sec)
    ensures (m + ":" + sec)[..|m + ":" + sec| - 3] == m
  {
    var r := m + ":" + sec;
    assert r[..|r| - 3] == m;
    assert r[|r| - 2..] == sec;
  }
}
