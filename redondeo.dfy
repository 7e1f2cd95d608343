/**
 * Rounding of money amounts to whole cents, as the receipt pipeline does with
 * `Number(x.toFixed(2))`. Amounts are exact reals; the rounding rule is the
 * one of Number.prototype.toFixed (section 21.1.3.3 of ECMA-262): the nearest
 * multiple of 0.01, ties away from zero.
 */
module Redondeo {

  /** True when `x` is a whole number of cents. */
  predicate EsCentimos(x: real) {
    (x * 100.0).Floor as real == x * 100.0
  }

  /**
   * `roundToTwoDecimals`: the cent amount nearest to `x`; a value exactly half
   * a cent away from two cent amounts goes to the one farther from zero.
   * The three bounds below determine the result (see RoundToTwoDecimalsUnico).
   */
  function RoundToTwoDecimals(x: real): (r: real)
    ensures EsCentimos(r)
    ensures x >= 0.0 ==> -0.005 < r - x <= 0.005
    ensures x < 0.0 ==> -0.005 <= r - x < 0.005
  {
    var a := if x < 0.0 then -x else x;
    var n := (a * 100.0 + 0.5).Floor;
    assert n as real <= a * 100.0 + 0.5 < n as real + 1.0;
    CentimosDe(n);
    if x < 0.0 then -n as real / 100.0 else n as real / 100.0
  }

  /** A whole number of cents, in either sign, is a cent amount. */
  lemma CentimosDe(n: int)
    ensures EsCentimos(n as real / 100.0) && EsCentimos(-n as real / 100.0)
  {
    assert n as real / 100.0 * 100.0 == n as real;
    assert -n as real / 100.0 * 100.0 == (-n) as real;
  }

  /** A cent amount within the rounding bounds of `x` is the rounded value. */
  lemma RoundToTwoDecimalsUnico(x: real, c: real)
    requires EsCentimos(c)
    requires x >= 0.0 ==> -0.005 < c - x <= 0.005
    requires x < 0.0 ==> -0.005 <= c - x < 0.005
    ensures c == RoundToTwoDecimals(x)
  {
    var r := RoundToTwoDecimals(x);
    var n, m := (c * 100.0).Floor, (r * 100.0).Floor;
    assert n as real == c * 100.0 && m as real == r * 100.0;
    assert -1.0 < (n - m) as real < 1.0;
  }

  /** Rounding leaves a cent amount as it is. */
  lemma RoundToTwoDecimalsExacto(x: real)
    requires EsCentimos(x)
    ensures RoundToTwoDecimals(x) == x
  {
    RoundToTwoDecimalsUnico(x, x);
  }

  /** Rounding twice is rounding once. */
  lemma RoundToTwoDecimalsIdempotente(x: real)
    ensures RoundToTwoDecimals(RoundToTwoDecimals(x)) == RoundToTwoDecimals(x)
  {
    RoundToTwoDecimalsExacto(RoundToTwoDecimals(x));
  }

  /** Rounding is monotone. */
  lemma RoundToTwoDecimalsMonotono(x: real, y: real)
    requires x <= y
    ensures RoundToTwoDecimals(x) <= RoundToTwoDecimals(y)
  {
    if x < 0.0 && y < 0.0 {
      FloorMonotono(-y * 100.0 + 0.5, -x * 100.0 + 0.5);
    } else if 0.0 <= x {
      FloorMonotono(x * 100.0 + 0.5, y * 100.0 + 0.5);
    }
  }

  /** Rounding is symmetric about zero. */
  lemma RoundToTwoDecimalsSimetrico(x: real)
    ensures RoundToTwoDecimals(-x) == -RoundToTwoDecimals(x)
  {
    if x != 0.0 {
      var r := RoundToTwoDecimals(x);
      assert EsCentimos(0.0);
      CentimosCerrados(0.0, r);
      RoundToTwoDecimalsUnico(-x, 0.0 - r);
    }
  }

  /**
   * Rounding equal amounts gives equal results, however each is written. A
   * solver aid: calling it makes the solver match two products it would not
   * otherwise see as equal.
   */
  lemma RoundToTwoDecimalsIgual(x: real, y: real)
    requires x == y
    ensures RoundToTwoDecimals(x) == RoundToTwoDecimals(y)
  {
  }

  /** Floor is monotone; a solver aid for RoundToTwoDecimalsMonotono. */
  lemma FloorMonotono(a: real, b: real)
    requires a <= b
    ensures a.Floor <= b.Floor
  {
  }

  /** Sums and differences of cent amounts are cent amounts. */
  lemma CentimosCerrados(a: real, b: real)
    requires EsCentimos(a) && EsCentimos(b)
    ensures EsCentimos(a + b) && EsCentimos(a - b)
  {
    var n, m := (a * 100.0).Floor, (b * 100.0).Floor;
    assert (a + b) * 100.0 == a * 100.0 + b * 100.0 == (n + m) as real;
    assert (a - b) * 100.0 == a * 100.0 - b * 100.0 == (n - m) as real;
    assert ((n + m) as real).Floor == n + m;
    assert ((n - m) as real).Floor == n - m;
  }

  /**
   * Ties go away from zero, on both sides. On a double these inputs behave
   * the same way: 0.125 is exact in binary, and the doubles nearest 0.005 and
   * -0.005 lie just beyond the tie, so `toFixed(2)` rounds them the same way.
   */
  lemma RoundToTwoDecimalsEmpates()
    ensures RoundToTwoDecimals(0.005) == 0.01
    ensures RoundToTwoDecimals(-0.005) == -0.01
    ensures RoundToTwoDecimals(0.0049) == 0.0
    ensures RoundToTwoDecimals(0.125) == 0.13
  {
    RoundToTwoDecimalsUnico(0.005, 0.01);
    RoundToTwoDecimalsUnico(-0.005, -0.01);
    RoundToTwoDecimalsUnico(0.0049, 0.0);
    RoundToTwoDecimalsUnico(0.125, 0.13);
  }
}
