/**
 * `formatTime`: seconds as minutes, a colon and two-digit seconds. The
 * JavaScript operators are written out: `Math.floor(seconds / 60)` is
 * floor division, `seconds % 60` keeps the sign of `seconds`, and
 * `padStart(2, '0')` adds one leading zero to a one-character string.
 */
module Clock {

  predicate IsDigit(c: char) {
    '0' <= c <= '9'
  }

  predicate AllDigits(s: string) {
    forall i :: 0 <= i < |s| ==> IsDigit(s[i])
  }

  function DigitChar(d: int): (c: char)
    requires 0 <= d < 10
    ensures IsDigit(c)
  {
    (('0' as int) + d) as char
  }

  /** The number a string of decimal digits reads as. */
  function DigitsValue(s: string): (v: nat)
    requires AllDigits(s)
  {
    if |s| == 0 then 0
    else DigitsValue(s[..|s| - 1]) * 10 + ((s[|s| - 1] as int) - ('0' as int))
  }

  /** `n.toString()` for a non-negative integer. */
  function NatToString(n: nat): (s: string)
    ensures |s| >= 1 && AllDigits(s)
    ensures n < 10 <==> |s| == 1
  {
    if n < 10 then [DigitChar(n)] else NatToString(n / 10) + [DigitChar(n % 10)]
  }

  /** The decimal text of a number reads back as that number. */
  lemma {:induction false} NatToStringValue(n: nat)
    ensures DigitsValue(NatToString(n)) == n
  {
    if n >= 10 {
      NatToStringValue(n / 10);
      var s := NatToString(n);
      assert s[..|s| - 1] == NatToString(n / 10);
    }
  }

  /** `n.toString()` for any integer. */
  function IntToString(n: int): string {
    if n < 0 then "-" + NatToString(-n) else NatToString(n)
  }

  /** `s.padStart(2, '0')`. */
  function PadStart2(s: string): string {
    if |s| >= 2 then s else "0" + s
  }

  /** A non-zero multiple of `b` is at least `b` in size. */
  lemma {:induction false} MulBound(b: int, d: int)
    requires b > 0
    ensures d >= 1 ==> b * d >= b
    ensures d <= -1 ==> b * d <= -b
    decreases if d < 0 then -d else d
  {
    if d > 1 {
      MulBound(b, d - 1);
      assert b * d == b * (d - 1) + b;
    } else if d < -1 {
      MulBound(b, d + 1);
      assert b * d == b * (d + 1) - b;
    }
  }

  /** Euclidean division is unique: a quotient and a remainder in `[0, b)` that rebuild `x` are the ones Dafny's `%` gives. */
  lemma ModUnique(x: int, b: int, q: int, r: int)
    requires b > 0 && 0 <= r < b && x == b * q + r
    ensures x % b == r
  {
    var q', r' := x / b, x % b;
    assert b * (q - q') == r' - r;
    MulBound(b, q - q');
  }

  /**
   * JavaScript's `a % b` for `b > 0`: the remainder of truncating division.
   * It differs from `a` by a multiple of `b`, is smaller than `b` in size,
   * and takes the sign of `a`.
   */
  function JsRemainder(a: int, b: int): (r: int)
    requires b > 0
    ensures r % b == a % b
    ensures -b < r < b
    ensures a >= 0 ==> r >= 0
    ensures a <= 0 ==> r <= 0
  {
    if a >= 0 then a % b
    else
      var m, q := (-a) % b, (-a) / b;
      if m == 0 then
        ModUnique(a, b, -q, 0);
        0
      else
        ModUnique(a, b, -q - 1, b - m);
        ModUnique(-m, b, -1, b - m);
        -m
  }

  /** JavaScript's remainder is zero exactly when Dafny's is, whatever the sign of the dividend. */
  lemma JsRemainderZero(a: int, b: int)
    requires b > 0
    ensures JsRemainder(a, b) == 0 <==> a % b == 0
  {
  }

  /**
   * For a non-negative count of seconds the text is `m:ss`: the part before
   * the colon and the two digits after it read back as minutes and seconds
   * that add up to the count, with fewer than 60 seconds.
   */
  function FormatTime(seconds: int): (r: string)
    ensures seconds >= 0 ==>
      |r| >= 4 && r[|r| - 3] == ':' && AllDigits(r[..|r| - 3]) && AllDigits(r[|r| - 2..]) &&
      DigitsValue(r[|r| - 2..]) < 60 &&
      DigitsValue(r[..|r| - 3]) * 60 + DigitsValue(r[|r| - 2..]) == seconds
  {
    var text := IntToString(seconds / 60) + ":" + PadStart2(IntToString(JsRemainder(seconds, 60)));
    if seconds >= 0 then
      MinutesAndSeconds(seconds);
      text
    else
      text
  }

  lemma MinutesAndSeconds(seconds: int)
    requires seconds >= 0
    ensures var r := IntToString(seconds / 60) + ":" + PadStart2(IntToString(JsRemainder(seconds, 60)));
      |r| >= 4 && r[|r| - 3] == ':' && r[..|r| - 3] == NatToString(seconds / 60) &&
      DigitsValue(r[..|r| - 3]) == seconds / 60 &&
      AllDigits(r[|r| - 2..]) && DigitsValue(r[|r| - 2..]) == seconds % 60
  {
    var m, s := seconds / 60, seconds % 60;
    var mins := NatToString(m);
    var secs := PadStart2(NatToString(s));
    NatToStringValue(s);
    NatToStringValue(m);
    assert |secs| == 2 && AllDigits(secs);
    assert DigitsValue(secs) == s by {
      if s < 10 {
        assert secs[..1] == "0";
      } else {
        assert secs == NatToString(s);
      }
    }
    var r := mins + ":" + secs;
    assert r[..|r| - 3] == mins;
    assert r[|r| - 2..] == secs;
  }

  /** What the leaked interval shows one second past zero. */
  lemma FormatOneSecondPastZero()
    ensures FormatTime(-1) == "-1:-1"
  {
    assert IntToString(-1) == "-1";
  }
}
