/**
 * Numeric building blocks shared by the four rating calculators:
 * the rounding shapes of the host languages, the expected-score
 * abstraction, and the decimal rendering of integers used by the
 * display helpers.
 */
module Numeric {

  /** A real in [0, 1]: the range of every expected score. */
  type Probability = x: real | 0.0 <= x <= 1.0

  /**
   * The expected score 1 / (1 + 10^((opponent - self) / 400)) is floating
   * point; the calculators receive it as a function of (self, opponent).
   * Its range is carried by the type; the one other law the lemmas use is
   * that equal ratings expect one half.
   */
  type ExpectedScore = (int, int) -> Probability

  ghost predicate EvenAtEqualRatings(E: ExpectedScore, r: int) {
    E(r, r) == 0.5
  }

  /** Java's and JavaScript's Math.round: floor(x + 1/2), ties toward +infinity. */
  function MathRound(x: real): (n: int)
    ensures x - 0.5 < n as real <= x + 0.5
  {
    (x + 0.5).Floor
  }

  /** Kotlin's Double.toInt(): truncation toward zero. */
  function ToInt(x: real): (n: int)
    ensures 0.0 <= x ==> x - 1.0 < n as real <= x
    ensures x < 0.0 ==> x <= n as real < x + 1.0
  {
    if x >= 0.0 then x.Floor else -((-x).Floor)
  }

  /** Rounding a value that lies within [-k, k] stays within [-k, k]. */
  lemma MathRoundWithin(x: real, k: int)
    requires -(k as real) <= x <= k as real
    ensures -k <= MathRound(x) <= k
  {
  }

  /** Rounding a value between two integers stays between them. */
  lemma MathRoundBetween(x: real, lo: int, hi: int)
    requires lo as real <= x <= hi as real
    ensures lo <= MathRound(x) <= hi
  {
  }

  /** Truncating old + d, with |d| <= k and old an integer, moves by at most k. */
  lemma ToIntShift(old_: int, d: real, k: int)
    requires -(k as real) <= d <= k as real
    ensures -k <= ToInt(old_ as real + d) - old_ <= k
  {
  }

  function Min(a: real, b: real): (m: real)
    ensures m <= a && m <= b && (m == a || m == b)
  {
    if a <= b then a else b
  }

  function Abs(n: int): (a: nat)
    ensures a == n || a == -n
  {
    if n < 0 then -n else n
  }

  // ----- decimal rendering, as Java's String.valueOf(int) / "" + int -----

  function DigitChar(d: int): (c: char)
    requires 0 <= d < 10
    ensures '0' <= c <= '9'
  {
    "0123456789"[d]
  }

  function DigitValue(c: char): (d: nat)
    requires '0' <= c <= '9'
    ensures d < 10
  {
    c as int - '0' as int
  }

  predicate AllDigits(s: string) {
    forall i :: 0 <= i < |s| ==> '0' <= s[i] <= '9'
  }

  /** Decimal digits of a natural number, most significant first. */
  function NatString(n: nat): (s: string)
    ensures |s| >= 1 && AllDigits(s)
    ensures n > 0 ==> s[0] != '0'
  {
    if n < 10 then [DigitChar(n)] else NatString(n / 10) + [DigitChar(n % 10)]
  }

  /** Decimal rendering of an integer, with a leading '-' when negative. */
  function DecimalString(n: int): (s: string)
    ensures |s| >= 1
    ensures s[0] == '-' <==> n < 0
    ensures s[0] != '+'
  {
    if n < 0 then "-" + NatString(-n) else NatString(n)
  }

  /** Value of a string of decimal digits. */
  function ParseNat(s: string): nat
    requires AllDigits(s)
  {
    if s == [] then 0 else 10 * ParseNat(s[..|s| - 1]) + DigitValue(s[|s| - 1])
  }

  /** Inverse of DecimalString. */
  predicate DecimalParsable(s: string) {
    |s| >= 1 && (if s[0] == '-' then AllDigits(s[1..]) else AllDigits(s))
  }

  function ParseDecimal(s: string): int
    requires DecimalParsable(s)
  {
    if s[0] == '-' then -(ParseNat(s[1..]) as int) else ParseNat(s)
  }

  lemma {:induction false} ParseNatString(n: nat)
    ensures ParseNat(NatString(n)) == n
  {
    if n >= 10 {
      var s := NatString(n);
      var prefix := NatString(n / 10);
      assert s == prefix + [DigitChar(n % 10)];
      assert s[..|s| - 1] == prefix;
      ParseNatString(n / 10);
      assert DigitValue(s[|s| - 1]) == n % 10 by {
        assert s[|s| - 1] == DigitChar(n % 10);
      }
    } else {
      var s := NatString(n);
      assert s[..0] == [];
    }
  }

  /** Reading back the decimal rendering gives the integer: no two integers print alike. */
  lemma DecimalRoundTrip(n: int)
    ensures DecimalParsable(DecimalString(n))
    ensures ParseDecimal(DecimalString(n)) == n
  {
    var s := DecimalString(n);
    if n < 0 {
      assert s[1..] == NatString(-n);
      ParseNatString(-n);
    } else {
      ParseNatString(n);
    }
  }
}
