/**
 * `Number.prototype.toFixed(2)` over exact real numbers, and a parser for its
 * output that serves as its inverse in the proofs. JavaScript's rule: a negative
 * value prints a "-" and then the magnitude; the magnitude is rounded to the
 * nearest hundredth, and of two equally near the larger is taken.
 */
module NumberFormat {
  import opened Wrappers

  predicate IsDigit(c: char) {
    '0' <= c <= '9'
  }

  predicate AllDigits(s: string) {
    forall i :: 0 <= i < |s| ==> IsDigit(s[i])
  }

  function Digit(d: nat): (c: char)
    requires d < 10
    ensures IsDigit(c) && c as int - '0' as int == d
  {
    "0123456789"[d]
  }

  function DigitValue(c: char): nat
    requires IsDigit(c)
  {
    c as int - '0' as int
  }

  /** The decimal numeral of `n`, without leading zeros. */
  function NatToString(n: nat): (s: string)
    ensures |s| > 0 && AllDigits(s)
    ensures n < 10 <==> |s| == 1
    ensures s[0] == '0' ==> n == 0
  {
    if n < 10 then [Digit(n)] else NatToString(n / 10) + [Digit(n % 10)]
  }

  /** The value of a string of decimal digits. */
  function DigitsValue(s: string): nat
    requires AllDigits(s)
  {
    if s == [] then 0 else DigitsValue(s[..|s| - 1]) * 10 + DigitValue(s[|s| - 1])
  }

  lemma {:induction false} NatToStringRoundTrip(n: nat)
    ensures DigitsValue(NatToString(n)) == n
  {
    if n >= 10 {
      var s := NatToString(n);
      assert s[..|s| - 1] == NatToString(n / 10);
      NatToStringRoundTrip(n / 10);
    }
  }

  function Abs(x: real): (r: real)
    ensures r >= 0.0 && (r == x || r == -x)
  {
    if x < 0.0 then -x else x
  }

  /** The integer nearest to `y`, the larger one on a tie. */
  function RoundHalfUp(y: real): (k: int)
    ensures k as real - 0.5 <= y < k as real + 0.5
  {
    (y + 0.5).Floor
  }

  /** "<whole>.<two digits>" for an amount held in hundredths. */
  function CentsToString(c: nat): (s: string)
    ensures |s| >= 4 && s[|s| - 3] == '.'
  {
    NatToString(c / 100) + "." + [Digit(c % 100 / 10), Digit(c % 10)]
  }

  /** The number of hundredths written as "<digits>.<digit><digit>", if `s` has that form. */
  function ParseCents(s: string): Option<nat> {
    if |s| >= 4 && s[|s| - 3] == '.' && AllDigits(s[..|s| - 3])
       && IsDigit(s[|s| - 2]) && IsDigit(s[|s| - 1])
    then Some(DigitsValue(s[..|s| - 3]) * 100 + DigitValue(s[|s| - 2]) * 10 + DigitValue(s[|s| - 1]))
    else None
  }

  lemma {:induction false} CentsRoundTrip(c: nat)
    ensures ParseCents(CentsToString(c)) == Some(c)
  {
    var s := CentsToString(c);
    var w := NatToString(c / 100);
    assert s[..|s| - 3] == w;
    assert AllDigits(s[..|s| - 3]);
    NatToStringRoundTrip(c / 100);
  }

  /** `x.toFixed(2)` for a value below 1e21 in magnitude. */
  function Fixed2(x: real): string {
    (if x < 0.0 then "-" else "") + CentsToString(RoundHalfUp(Abs(x) * 100.0))
  }

  /**
   * What `toFixed(2)` prints: a "-" exactly for a negative value, then the
   * magnitude in hundredths rounded half up, which reads back within half a
   * hundredth of the magnitude.
   */
  lemma Fixed2Meaning(x: real)
    ensures var s := Fixed2(x);
      && |s| > 0
      && (s[0] == '-' <==> x < 0.0)
      && var digits := if x < 0.0 then s[1..] else s;
         exists c: nat ::
           && ParseCents(digits) == Some(c)
           && c as real - 0.5 <= Abs(x) * 100.0 < c as real + 0.5
  {
    var c: nat := RoundHalfUp(Abs(x) * 100.0);
    var s := Fixed2(x);
    var body := CentsToString(c);
    CentsRoundTrip(c);
    assert IsDigit(body[0]) by { assert body[..|body| - 3] == NatToString(c / 100); }
    if x < 0.0 {
      assert s[1..] == body;
    } else {
      assert s == body;
    }
    var digits := if x < 0.0 then s[1..] else s;
    assert ParseCents(digits) == Some(c);
  }
}
